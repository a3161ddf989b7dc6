/**
 * The job form shared by the two job screens (the current one and the
 * older "add job" one): its fields, the edits its setters make, how it is
 * filled from a stored job, and the job it turns into on submit.
 */
module JobForm {
  import opened Common

  /** The parts of an Android `Address` the screens read. */
  datatype Address = Address(featureName: Option<string>, countryName: Option<string>, latitude: real, longitude: real)

  /** An employer as the form holds it. */
  datatype EmployerRef = EmployerRef(uid: string, name: string)

  /** `JobUIState` / `JobManagerViewModel`; dates are day numbers. */
  datatype JobFormState = JobFormState(
    position: string,
    locationInfo: string,
    location: Option<Address>,
    description: string,
    startDate: int,
    endDate: int,
    employer: Option<EmployerRef>,
    loading: bool)

  /** The default form: empty text, nothing selected, not loading, both dates `today`. */
  function DefaultJobForm(today: int): (r: JobFormState)
    ensures r.position == "" && r.locationInfo == "" && r.description == ""
    ensures r.location.None? && r.employer.None? && !r.loading
    ensures r.startDate == today && r.endDate == today
  {
    JobFormState("", "", None, "", today, today, None, false)
  }

  /** What one setter does: each names one field of the form. */
  datatype JobFormEdit =
    | DescriptionEdit(description: string)
    | StartDateEdit(startDate: int)
    | EndDateEdit(endDate: int)
    | EmployerEdit(employer: Option<EmployerRef>)
    | PositionEdit(position: string)
    | LocationEdit(location: Address)

  /** The form after a setter. */
  function ApplyEdit(s: JobFormState, e: JobFormEdit): JobFormState {
    match e
    case DescriptionEdit(v) => s.(description := v)
    case StartDateEdit(d) => s.(startDate := d)
    case EndDateEdit(d) => s.(endDate := d)
    case EmployerEdit(v) => s.(employer := v)
    case PositionEdit(v) => s.(position := v)
    case LocationEdit(a) => s.(location := Some(a))
  }

  /** Two edits touch the same field exactly when they are of the same kind. */
  predicate SameField(e1: JobFormEdit, e2: JobFormEdit) {
    match (e1, e2)
    case (DescriptionEdit(_), DescriptionEdit(_)) => true
    case (StartDateEdit(_), StartDateEdit(_)) => true
    case (EndDateEdit(_), EndDateEdit(_)) => true
    case (EmployerEdit(_), EmployerEdit(_)) => true
    case (PositionEdit(_), PositionEdit(_)) => true
    case (LocationEdit(_), LocationEdit(_)) => true
    case _ => false
  }

  /**
   * Each setter changes only its own field: setters of different fields
   * commute, a later setter of the same field overrides an earlier one, and
   * no setter touches the location text or the loading flag.
   */
  lemma EditsAreIndependent(s: JobFormState, e1: JobFormEdit, e2: JobFormEdit)
    ensures !SameField(e1, e2) ==> ApplyEdit(ApplyEdit(s, e1), e2) == ApplyEdit(ApplyEdit(s, e2), e1)
    ensures SameField(e1, e2) ==> ApplyEdit(ApplyEdit(s, e1), e2) == ApplyEdit(s, e2)
    ensures ApplyEdit(s, e1).locationInfo == s.locationInfo && ApplyEdit(s, e1).loading == s.loading
  {
  }

  /** A nullable value in a Kotlin string template: its text, or "null". */
  function NullableText(v: Option<string>): (r: string)
    ensures v.Some? ==> r == v.value
    ensures v.None? ==> r == "null"
  {
    if v.Some? then v.value else "null"
  }

  /** `"${location?.featureName}<sep>${location?.countryName}"`. */
  function LocationInfo(location: Option<Address>, sep: string): string {
    var feature := if location.Some? then location.value.featureName else None;
    var country := if location.Some? then location.value.countryName else None;
    NullableText(feature) + sep + NullableText(country)
  }

  /**
   * The location text starts with the place name and ends with the country
   * name, with the separator between; a missing name is written "null".
   */
  lemma LocationInfoParts(a: Address, sep: string)
    ensures var t := LocationInfo(Some(a), sep);
            var f := NullableText(a.featureName);
            var c := NullableText(a.countryName);
            && |t| == |f| + |sep| + |c|
            && t[..|f|] == f && t[|f|..|f| + |sep|] == sep && t[|f| + |sep|..] == c
  {
    var t := LocationInfo(Some(a), sep);
    var f := NullableText(a.featureName);
    var c := NullableText(a.countryName);
    assert t == f + sep + c;
    assert t[..|f|] == f;
    assert t[|f|..|f| + |sep|] == sep;
    assert t[|f| + |sep|..] == c;
  }

  /**
   * The two separators the screens use never agree: the text written with
   * ", " is one character longer than the text written with ",".
   */
  lemma SeparatorsDiffer(location: Option<Address>)
    ensures |LocationInfo(location, ", ")| == |LocationInfo(location, ",")| + 1
    ensures LocationInfo(location, ", ") != LocationInfo(location, ",")
  {
  }

  /** What a submit sends, without the screen-specific parts (user, season, job id). */
  datatype JobDraft = JobDraft(
    description: string,
    position: string,
    locationInfo: string,
    latitude: real,
    longitude: real,
    employer: EmployerRef,
    startDate: int,
    endDate: int)

  /**
   * The job a submit builds from the form with separator `sep`; `None` when
   * no location (`latitude!!`) or no employer (`employer!!`) is selected.
   */
  function Draft(s: JobFormState, sep: string): (r: Option<JobDraft>)
    ensures r.Some? <==> s.location.Some? && s.employer.Some?
    ensures r.Some? ==>
              && r.value.description == s.description && r.value.position == s.position
              && r.value.locationInfo == LocationInfo(s.location, sep)
              && r.value.latitude == s.location.value.latitude && r.value.longitude == s.location.value.longitude
              && r.value.employer == s.employer.value
              && r.value.startDate == s.startDate && r.value.endDate == s.endDate
  {
    if s.location.None? || s.employer.None? then None
    else Some(JobDraft(s.description, s.position, LocationInfo(s.location, sep),
                       s.location.value.latitude, s.location.value.longitude,
                       s.employer.value, s.startDate, s.endDate))
  }

  /** A stored job as the screens read it back to fill the form. */
  datatype FetchedJob = FetchedJob(
    employer: EmployerRef,
    position: string,
    description: string,
    locationInfo: string,
    startDate: int,
    endDate: int)

  /**
   * `getFromLocationName(locationInfo, 1)?.first()`: no answer is no
   * location, an answer's first address is the location, and an empty
   * answer (where `first()` throws) is `None`.
   */
  function FirstAddress(geocoded: Option<seq<Address>>): (r: Option<Option<Address>>)
    ensures r.None? <==> geocoded.Some? && geocoded.value == []
    ensures geocoded.None? ==> r == Some(None)
    ensures geocoded.Some? && geocoded.value != [] ==> r == Some(Some(geocoded.value[0]))
  {
    if geocoded.None? then Some(None)
    else if geocoded.value == [] then None
    else Some(Some(geocoded.value[0]))
  }

  /** The form filled from a fetched job and its geocoded location; loading ends. */
  function Filled(s: JobFormState, job: FetchedJob, location: Option<Address>): (r: JobFormState)
    ensures r.employer == Some(job.employer) && r.location == location
    ensures r.position == job.position && r.description == job.description && r.locationInfo == job.locationInfo
    ensures r.startDate == job.startDate && r.endDate == job.endDate && !r.loading
  {
    s.(employer := Some(job.employer), location := location, startDate := job.startDate, endDate := job.endDate,
       position := job.position, description := job.description, locationInfo := job.locationInfo, loading := false)
  }

  /**
   * Filling then submitting sends the stored job back unchanged apart from
   * its location text, which is rebuilt from the geocoded address: the
   * stored text survives only when it already reads "<place><sep><country>".
   */
  lemma FilledDraft(s: JobFormState, job: FetchedJob, a: Address, sep: string)
    ensures var d := Draft(Filled(s, job, Some(a)), sep);
            && d.Some?
            && d.value == JobDraft(job.description, job.position, LocationInfo(Some(a), sep), a.latitude, a.longitude,
                                   job.employer, job.startDate, job.endDate)
            && (d.value.locationInfo == job.locationInfo <==>
                  job.locationInfo == NullableText(a.featureName) + sep + NullableText(a.countryName))
  {
  }
}
