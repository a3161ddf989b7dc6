/**
 * The document store as the repositories see it: collections of documents
 * keyed by id, each document a record whose fields may be missing.
 * A missing field is `None`; a field stored as null reads the same way.
 */
module Firestore {
  import opened Common

  /** A document reference, as its path segments: `["users", uid, "jobs", jobId]`. */
  type Path = seq<string>

  /** `DocumentReference.id`: the last segment of the path. */
  function PathId(p: Path): string {
    if p == [] then "" else p[|p| - 1]
  }

  function UserPath(uid: string): Path {
    ["users", uid]
  }

  function UserJobPath(uid: string, jobId: string): Path {
    ["users", uid, "jobs", jobId]
  }

  function TopJobPath(jobId: string): Path {
    ["jobs", jobId]
  }

  function EmployerPath(employerId: string): Path {
    ["employers", employerId]
  }

  datatype GeoPoint = GeoPoint(latitude: real, longitude: real)

  /** A document of the `incomes` collection. */
  datatype IncomeDoc = IncomeDoc(
    job: Option<Path>,
    user: Option<Path>,
    season: Option<int>,
    baseEarned: Option<real>,
    tipsEarned: Option<real>,
    hoursWorked: Option<int>,
    date: Option<int>)

  /** A document of the `expenses` collection. */
  datatype ExpenseDoc = ExpenseDoc(
    amount: Option<real>,
    date: Option<int>,
    description: Option<string>,
    season: Option<int>,
    tag: Option<string>,
    user: Option<Path>)

  /** A document of a `users/{uid}/jobs` subcollection (or of the top-level `jobs` collection). */
  datatype JobDoc = JobDoc(
    active: Option<bool>,
    deleted: Option<bool>,
    description: Option<string>,
    employer: Option<Path>,
    locationInfo: Option<string>,
    location: Option<GeoPoint>,
    position: Option<string>,
    season: Option<int>,
    startDate: Option<int>,
    endDate: Option<int>)

  /** A document of the `employers` collection. */
  datatype EmployerDoc = EmployerDoc(name: Option<string>)

  /** A document of the `users` collection. */
  datatype UserDoc = UserDoc(name: Option<string>, surname: Option<string>, phone: Option<string>)

  /** One document of a query snapshot: its id and its fields. */
  datatype Entry<D> = Entry(id: string, doc: D)

  predicate UniqueIds<D>(snap: seq<Entry<D>>) {
    forall i, j :: 0 <= i < j < |snap| ==> snap[i].id != snap[j].id
  }

  /** `snap` lists exactly the documents of `coll`, each once, in some store order. */
  predicate Enumerates<D(==)>(snap: seq<Entry<D>>, coll: map<string, D>) {
    && UniqueIds(snap)
    && (forall e :: e in snap ==> e.id in coll && coll[e.id] == e.doc)
    && (forall id :: id in coll ==> exists e :: e in snap && e.id == id)
  }

  /** The jobs subcollection of one user; a user without one has none. */
  function JobsOf(userJobs: map<string, map<string, JobDoc>>, uid: string): map<string, JobDoc> {
    if uid in userJobs then userJobs[uid] else map[]
  }

  /** The job document a reference points at, if there is one: per-user or top-level. */
  function JobAt(topJobs: map<string, JobDoc>, userJobs: map<string, map<string, JobDoc>>, p: Path): Option<JobDoc> {
    if |p| == 4 && p[0] == "users" && p[2] == "jobs" && p[3] in JobsOf(userJobs, p[1]) then
      Some(JobsOf(userJobs, p[1])[p[3]])
    else if |p| == 2 && p[0] == "jobs" && p[1] in topJobs then
      Some(topJobs[p[1]])
    else
      None
  }

  /** The employer document a reference points at, if there is one. */
  function EmployerAt(employers: map<string, EmployerDoc>, p: Path): Option<EmployerDoc> {
    if |p| == 2 && p[0] == "employers" && p[1] in employers then Some(employers[p[1]]) else None
  }

  /** The collections the repositories read and write. */
  class Db {
    var incomes: map<string, IncomeDoc>
    var expenses: map<string, ExpenseDoc>
    var employers: map<string, EmployerDoc>
    var users: map<string, UserDoc>
    var userJobs: map<string, map<string, JobDoc>>
    var topJobs: map<string, JobDoc>

    constructor ()
      ensures incomes == map[] && expenses == map[] && employers == map[]
      ensures users == map[] && userJobs == map[] && topJobs == map[]
    {
      incomes, expenses, employers := map[], map[], map[];
      users, userJobs, topJobs := map[], map[], map[];
    }
  }
}
