/**
 * Jobs live in a per-user subcollection `users/{uid}/jobs`. Deleting a job
 * only raises its `deleted` flag: the listing hides it, a lookup by id does
 * not. A job is only shown when its employer reference resolves.
 */
module JobRepository {
  import opened Common
  import opened Firestore
  import opened Collections
  import opened EmployerRepository

  datatype JobCreateModel = JobCreateModel(
    description: string,
    employerId: string,
    locationInfo: string,
    locationLongitude: real,
    locationLatitude: real,
    position: string,
    season: int,
    userId: string,
    startDate: int,
    endDate: int)

  datatype JobUpdateModel = JobUpdateModel(
    description: string,
    employerId: string,
    userId: string,
    locationInfo: string,
    location: GeoPoint,
    position: string,
    startDate: int,
    endDate: int)

  datatype JobGetModel = JobGetModel(
    id: string,
    description: string,
    employer: EmployerGetModel,
    locationInfo: string,
    locationLatitude: real,
    locationLongitude: real,
    position: string,
    season: int,
    startDate: int,
    endDate: int)

  /** The stored job record with the defaults `toObject` fills in. */
  datatype Job = Job(
    active: bool,
    deleted: bool,
    description: string,
    employer: Option<Path>,
    locationInfo: string,
    location: GeoPoint,
    position: string,
    season: int,
    startDate: int,
    endDate: int)

  /** The document written for a job record: every field present, a null employer absent. */
  function JobFields(j: Job): JobDoc {
    JobDoc(Some(j.active), Some(j.deleted), Some(j.description), j.employer, Some(j.locationInfo),
      Some(j.location), Some(j.position), Some(j.season), Some(j.startDate), Some(j.endDate))
  }

  /**
   * `toObject<Job>()`: missing fields take the defaults (inactive, not deleted,
   * empty texts, no employer, location (0, 0), the current year, today).
   * Writing the record back reproduces the document exactly when no
   * defaulted field was missing.
   */
  function ToJob(d: JobDoc, now: int, currentYear: int): (r: Job)
    ensures JobFields(r) == d <==>
      && d.active.Some? && d.deleted.Some? && d.description.Some? && d.locationInfo.Some?
      && d.location.Some? && d.position.Some? && d.season.Some? && d.startDate.Some? && d.endDate.Some?
  {
    Job(d.active.GetOr(false), d.deleted.GetOr(false), d.description.GetOr(""), d.employer,
      d.locationInfo.GetOr(""), d.location.GetOr(GeoPoint(0.0, 0.0)), d.position.GetOr(""),
      d.season.GetOr(currentYear), d.startDate.GetOr(now), d.endDate.GetOr(now))
  }

  /** A stored job record reads back as itself, whatever the defaults. */
  lemma JobRoundTrip(j: Job, now: int, currentYear: int)
    ensures ToJob(JobFields(j), now, currentYear) == j
  {
  }

  /** The record `createJob` builds: active, not deleted, employer `employers/{employerId}`. */
  function NewJob(m: JobCreateModel): Job {
    Job(true, false, m.description, Some(EmployerPath(m.employerId)), m.locationInfo,
      GeoPoint(m.locationLatitude, m.locationLongitude), m.position, m.season, m.startDate, m.endDate)
  }

  /** The per-user jobs with the document at `uid`/`jobId` set to `doc`. */
  function WithJob(userJobs: map<string, map<string, JobDoc>>, uid: string, jobId: string, doc: JobDoc)
    : (r: map<string, map<string, JobDoc>>)
    ensures jobId in JobsOf(r, uid) && JobsOf(r, uid)[jobId] == doc
    ensures forall u, j :: (u != uid || j != jobId) ==>
      (j in JobsOf(r, u) <==> j in JobsOf(userJobs, u)) &&
      (j in JobsOf(r, u) ==> JobsOf(r, u)[j] == JobsOf(userJobs, u)[j])
  {
    userJobs[uid := JobsOf(userJobs, uid)[jobId := doc]]
  }

  /**
   * `mapDocumentSnapshotToJobGetModel`: nothing when the job document is absent
   * or its employer reference is missing or does not resolve.
   */
  function MapJobDocument(id: string, snapshot: Option<JobDoc>, employers: map<string, EmployerDoc>, now: int, currentYear: int)
    : (r: Option<JobGetModel>)
    ensures r.Some? <==>
      snapshot.Some? && snapshot.value.employer.Some? && EmployerAt(employers, snapshot.value.employer.value).Some?
    ensures r.Some? ==> r.value.id == id && r.value.employer.id == PathId(snapshot.value.employer.value)
  {
    match snapshot
    case None => None
    case Some(d) =>
      var job := ToJob(d, now, currentYear);
      if d.employer.None? then None
      else
        match EmployerAt(employers, d.employer.value)
        case None => None
        case Some(e) =>
          Some(JobGetModel(id, job.description, EmployerGetModel(PathId(d.employer.value), ToEmployer(e).name),
            job.locationInfo, job.location.latitude, job.location.longitude, job.position, job.season,
            job.startDate, job.endDate))
  }

  /** `getJob(userId, jobId)`: the job by id, whatever its `deleted` flag. */
  function GetJob(userJobs: map<string, map<string, JobDoc>>, employers: map<string, EmployerDoc>,
    userId: string, jobId: string, now: int, currentYear: int): Option<JobGetModel>
  {
    var jobs := JobsOf(userJobs, userId);
    MapJobDocument(jobId, if jobId in jobs then Some(jobs[jobId]) else None, employers, now, currentYear)
  }

  /** The query `whereEqualTo("deleted", false)`: a document without the field does not match. */
  function NotDeleted(): Entry<JobDoc> -> bool {
    (e: Entry<JobDoc>) => e.doc.deleted == Some(false)
  }

  function MapEntry(employers: map<string, EmployerDoc>, now: int, currentYear: int): Entry<JobDoc> -> Option<JobGetModel> {
    (e: Entry<JobDoc>) => MapJobDocument(e.id, Some(e.doc), employers, now, currentYear)
  }

  /**
   * `getJobs(userId)` over the listing `snap` of the user's jobs: exactly the
   * jobs whose `deleted` field is false and whose employer resolves.
   */
  function GetJobs(snap: seq<Entry<JobDoc>>, employers: map<string, EmployerDoc>, now: int, currentYear: int)
    : (r: seq<JobGetModel>)
    ensures forall j :: j in r <==>
      (exists e :: e in snap && e.doc.deleted == Some(false) &&
         MapJobDocument(e.id, Some(e.doc), employers, now, currentYear) == Some(j))
  {
    var kept := Filter(snap, NotDeleted());
    var r := MapNotNull(kept, MapEntry(employers, now, currentYear));
    assert forall j :: j in r <==> exists e :: e in kept && MapEntry(employers, now, currentYear)(e) == Some(j);
    r
  }

  /**
   * Over a snapshot that enumerates a jobs collection, `getJobs` lists exactly
   * the mapped stored jobs whose `deleted` field is false, whatever the
   * snapshot's order.
   */
  lemma {:induction false} GetJobsOfStore(snap: seq<Entry<JobDoc>>, jobs: map<string, JobDoc>,
    employers: map<string, EmployerDoc>, now: int, currentYear: int)
    requires Enumerates(snap, jobs)
    ensures forall j :: j in GetJobs(snap, employers, now, currentYear) <==>
      exists id :: id in jobs && jobs[id].deleted == Some(false) &&
        MapJobDocument(id, Some(jobs[id]), employers, now, currentYear) == Some(j)
  {
    forall j | j in GetJobs(snap, employers, now, currentYear)
      ensures exists id :: (id in jobs && jobs[id].deleted == Some(false) &&
                             MapJobDocument(id, Some(jobs[id]), employers, now, currentYear) == Some(j))
    {
      var e :| e in snap && e.doc.deleted == Some(false) &&
        MapJobDocument(e.id, Some(e.doc), employers, now, currentYear) == Some(j);
      assert e.id in jobs && jobs[e.id] == e.doc;
    }
    forall j, id | id in jobs && jobs[id].deleted == Some(false) &&
        MapJobDocument(id, Some(jobs[id]), employers, now, currentYear) == Some(j)
      ensures j in GetJobs(snap, employers, now, currentYear)
    {
      var e :| e in snap && e.id == id;
      assert e.doc == jobs[id];
    }
  }

  /** A soft-deleted job is absent from every listing of the user's jobs. */
  lemma {:induction false} SoftDeletedNotListed(userJobs: map<string, map<string, JobDoc>>, employers: map<string, EmployerDoc>,
    userId: string, jobId: string, snap: seq<Entry<JobDoc>>, now: int, currentYear: int)
    requires jobId in JobsOf(userJobs, userId)
    requires Enumerates(snap, JobsOf(WithJob(userJobs, userId, jobId, JobsOf(userJobs, userId)[jobId].(deleted := Some(true))), userId))
    ensures forall j :: j in GetJobs(snap, employers, now, currentYear) ==> j.id != jobId
  {
    forall j | j in GetJobs(snap, employers, now, currentYear)
      ensures j.id != jobId
    {
      var e :| e in snap && e.doc.deleted == Some(false) &&
        MapJobDocument(e.id, Some(e.doc), employers, now, currentYear) == Some(j);
      assert j.id == e.id;
    }
  }

  /** `getJob` reads neither flag, so a soft delete does not change what it returns. */
  lemma SoftDeletedStillFound(userJobs: map<string, map<string, JobDoc>>, employers: map<string, EmployerDoc>,
    userId: string, jobId: string, now: int, currentYear: int)
    requires jobId in JobsOf(userJobs, userId)
    ensures GetJob(WithJob(userJobs, userId, jobId, JobsOf(userJobs, userId)[jobId].(deleted := Some(true))),
      employers, userId, jobId, now, currentYear) == GetJob(userJobs, employers, userId, jobId, now, currentYear)
  {
  }

  /** A job stored by `createJob` is found by `getJob` with the submitted values, provided its employer exists. */
  lemma CreateThenGet(userJobs: map<string, map<string, JobDoc>>, employers: map<string, EmployerDoc>,
    m: JobCreateModel, newId: string, now: int, currentYear: int)
    ensures GetJob(WithJob(userJobs, m.userId, newId, JobFields(NewJob(m))), employers, m.userId, newId, now, currentYear)
      == if m.employerId in employers then
           Some(JobGetModel(newId, m.description, EmployerGetModel(m.employerId, employers[m.employerId].name.GetOr("")),
             m.locationInfo, m.locationLatitude, m.locationLongitude, m.position, m.season, m.startDate, m.endDate))
         else None
  {
  }

  /** A created job shows up in every listing of the user's jobs when its employer exists. */
  lemma {:induction false} CreateThenListed(userJobs: map<string, map<string, JobDoc>>, employers: map<string, EmployerDoc>,
    m: JobCreateModel, newId: string, snap: seq<Entry<JobDoc>>, now: int, currentYear: int)
    requires m.employerId in employers
    requires Enumerates(snap, JobsOf(WithJob(userJobs, m.userId, newId, JobFields(NewJob(m))), m.userId))
    ensures exists j :: j in GetJobs(snap, employers, now, currentYear) && j.id == newId && j.position == m.position
  {
    var jobs := JobsOf(WithJob(userJobs, m.userId, newId, JobFields(NewJob(m))), m.userId);
    assert newId in jobs;
    var e :| e in snap && e.id == newId;
    assert e.doc == JobFields(NewJob(m));
    var j := MapJobDocument(e.id, Some(e.doc), employers, now, currentYear).value;
    assert j in GetJobs(snap, employers, now, currentYear);
  }

  /** The fields `updateJob` overwrites; `active`, `deleted` and `season` keep their stored values. */
  function UpdatedJob(d: JobDoc, m: JobUpdateModel): JobDoc {
    d.(description := Some(m.description), employer := Some(EmployerPath(m.employerId)),
      locationInfo := Some(m.locationInfo), location := Some(m.location), position := Some(m.position),
      startDate := Some(m.startDate), endDate := Some(m.endDate))
  }

  /** After `updateJob`, `getJob` returns the new values with the old season, and the job stays listed or hidden as before. */
  lemma UpdateThenGet(d: JobDoc, m: JobUpdateModel, jobId: string, employers: map<string, EmployerDoc>, now: int, currentYear: int)
    requires m.employerId in employers
    ensures UpdatedJob(d, m).active == d.active && UpdatedJob(d, m).deleted == d.deleted && UpdatedJob(d, m).season == d.season
    ensures MapJobDocument(jobId, Some(UpdatedJob(d, m)), employers, now, currentYear) ==
      Some(JobGetModel(jobId, m.description, EmployerGetModel(m.employerId, employers[m.employerId].name.GetOr("")),
        m.locationInfo, m.location.latitude, m.location.longitude, m.position, d.season.GetOr(currentYear),
        m.startDate, m.endDate))
  {
  }

  class JobRepositoryImpl {
    const db: Db

    constructor (db: Db)
      ensures this.db == db
    {
      this.db := db;
    }

    /**
     * `createJob`: adds the new record to `users/{userId}/jobs` under the
     * store-chosen id `newId`. A failed write is swallowed and stores nothing.
     */
    method CreateJob(m: JobCreateModel, newId: string, writeFails: bool)
      requires newId !in JobsOf(db.userJobs, m.userId)
      modifies db`userJobs
      ensures writeFails ==> db.userJobs == old(db.userJobs)
      ensures !writeFails ==> db.userJobs == WithJob(old(db.userJobs), m.userId, newId, JobFields(NewJob(m)))
    {
      var job := NewJob(m);
      if !writeFails {
        db.userJobs := WithJob(db.userJobs, m.userId, newId, JobFields(job));
      }
    }

    /** `deleteJob`: sets `deleted` to true on that job only; updating a missing document fails. */
    method DeleteJob(userId: string, jobId: string) returns (found: bool)
      modifies db`userJobs
      ensures found <==> jobId in JobsOf(old(db.userJobs), userId)
      ensures found ==>
        db.userJobs == WithJob(old(db.userJobs), userId, jobId, JobsOf(old(db.userJobs), userId)[jobId].(deleted := Some(true)))
      ensures !found ==> db.userJobs == old(db.userJobs)
    {
      var jobs := JobsOf(db.userJobs, userId);
      found := jobId in jobs;
      if found {
        db.userJobs := WithJob(db.userJobs, userId, jobId, jobs[jobId].(deleted := Some(true)));
      }
    }

    /** `updateJob`: overwrites the edited fields of `users/{m.userId}/jobs/{jobId}`; a missing document fails. */
    method UpdateJob(jobId: string, m: JobUpdateModel) returns (found: bool)
      modifies db`userJobs
      ensures found <==> jobId in JobsOf(old(db.userJobs), m.userId)
      ensures found ==>
        db.userJobs == WithJob(old(db.userJobs), m.userId, jobId, UpdatedJob(JobsOf(old(db.userJobs), m.userId)[jobId], m))
      ensures !found ==> db.userJobs == old(db.userJobs)
    {
      var jobs := JobsOf(db.userJobs, m.userId);
      found := jobId in jobs;
      if found {
        db.userJobs := WithJob(db.userJobs, m.userId, jobId, UpdatedJob(jobs[jobId], m));
      }
    }
  }
}
