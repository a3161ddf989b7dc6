/**
 * Employers: a flat collection of documents with an optional name.
 * Search is a case-insensitive substring filter over the named ones, a
 * plain listing may be limited to the first few documents, and creating
 * one adds a document and reads it back.
 */
module EmployerRepository {
  import opened Common
  import opened Text
  import opened Firestore
  import opened Collections

  datatype EmployerGetModel = EmployerGetModel(id: string, name: string)

  datatype EmployerCreateModel = EmployerCreateModel(name: string)

  /** The employer record as `toObject` reads it: a missing name reads as "". */
  datatype Employer = Employer(name: string)

  function ToEmployer(d: EmployerDoc): Employer {
    Employer(d.name.GetOr(""))
  }

  /** A search hit for a document that has a name; a nameless document gives none. */
  function Named(e: Entry<EmployerDoc>): Option<EmployerGetModel> {
    if e.doc.name.Some? then Some(EmployerGetModel(e.id, e.doc.name.value)) else None
  }

  function NamedEmployers(snap: seq<Entry<EmployerDoc>>): seq<EmployerGetModel> {
    MapNotNull(snap, Named)
  }

  function NameContains(lowerSearch: string): EmployerGetModel -> bool {
    (g: EmployerGetModel) => Contains(Lowercase(g.name), lowerSearch)
  }

  /**
   * `search(searchTerm)`: `result` is the read of the whole collection, `None`
   * when it failed. The hits are exactly the named documents whose lower-cased
   * name contains the lower-cased term.
   */
  function Search(result: Option<seq<Entry<EmployerDoc>>>, searchTerm: string): (r: seq<EmployerGetModel>)
    ensures result.None? ==> r == []
    ensures result.Some? ==> forall g :: g in r <==>
      && (exists e :: e in result.value && e.id == g.id && e.doc.name == Some(g.name))
      && Contains(Lowercase(g.name), Lowercase(searchTerm))
  {
    match result
    case None => []
    case Some(snap) =>
      var r := Filter(NamedEmployers(snap), NameContains(Lowercase(searchTerm)));
      assert forall g :: g in NamedEmployers(snap) <==> exists e :: e in snap && Named(e) == Some(g);
      r
  }

  /** Search hits keep the store order of the named employers. */
  lemma SearchKeepsOrder(snap: seq<Entry<EmployerDoc>>, searchTerm: string)
    ensures SubsequenceOf(Search(Some(snap), searchTerm), NamedEmployers(snap))
  {
    FilterIsSubsequence(NamedEmployers(snap), NameContains(Lowercase(searchTerm)));
  }

  /** An empty term matches every named employer, in store order. */
  lemma SearchEmptyTerm(snap: seq<Entry<EmployerDoc>>)
    ensures Search(Some(snap), "") == NamedEmployers(snap)
  {
    forall g | g in NamedEmployers(snap)
      ensures NameContains(Lowercase(""))(g)
    {
      assert OccursAt(Lowercase(g.name), "", 0);
    }
    FilterKeepsAll(NamedEmployers(snap), NameContains(Lowercase("")));
  }

  function AsEmployer(e: Entry<EmployerDoc>): EmployerGetModel {
    EmployerGetModel(e.id, ToEmployer(e.doc).name)
  }

  /**
   * `get(count)`: every document, or the first `count` of them in store order.
   * A count that is not positive makes the store query fail (`None`).
   */
  function Get(count: Option<int>, snap: seq<Entry<EmployerDoc>>): (r: Option<seq<EmployerGetModel>>)
    ensures r.None? <==> count.Some? && count.value <= 0
    ensures r.Some? && count.None? ==> |r.value| == |snap|
    ensures r.Some? && count.Some? ==> |r.value| == if count.value < |snap| then count.value else |snap|
    ensures r.Some? ==> forall i :: 0 <= i < |r.value| ==>
      r.value[i].id == snap[i].id && r.value[i].name == snap[i].doc.name.GetOr("")
  {
    if count.Some? && count.value <= 0 then None
    else
      var n := if count.Some? && count.value < |snap| then count.value else |snap|;
      Some(seq(n, i requires 0 <= i < n => AsEmployer(snap[i])))
  }

  /** `get(employerId)`: the document's id and name, or nothing when it is absent. */
  function GetById(employers: map<string, EmployerDoc>, employerId: string): (r: Option<EmployerGetModel>)
    ensures r.Some? <==> employerId in employers
    ensures r.Some? ==> r.value.id == employerId && r.value.name == employers[employerId].name.GetOr("")
  {
    if employerId in employers then Some(EmployerGetModel(employerId, ToEmployer(employers[employerId]).name))
    else None
  }

  /** Where `create` can stop: the write fails, the read-back fails, or both succeed. */
  datatype CreateOutcome = AddFails | ReadBackFails | Succeeds

  class EmployerRepositoryImpl {
    const db: Db

    constructor (db: Db)
      ensures this.db == db
    {
      this.db := db;
    }

    /**
     * `create`: adds `{name}` under the store-chosen id `newId` and reads it back.
     * Any failure yields nothing; a failed read-back still leaves the document.
     */
    method Create(m: EmployerCreateModel, newId: string, outcome: CreateOutcome) returns (r: Option<EmployerGetModel>)
      requires newId !in db.employers
      modifies db`employers
      ensures outcome == AddFails ==> db.employers == old(db.employers)
      ensures outcome != AddFails ==> db.employers == old(db.employers)[newId := EmployerDoc(Some(m.name))]
      ensures r.Some? <==> outcome == Succeeds
      ensures r.Some? ==> r == GetById(db.employers, newId) && r.value.name == m.name
    {
      if outcome == AddFails {
        return None;
      }
      db.employers := db.employers[newId := EmployerDoc(Some(m.name))];
      if outcome == ReadBackFails {
        return None;
      }
      var doc := db.employers[newId];
      r := Some(EmployerGetModel(newId, doc.name.GetOr("")));
    }
  }
}
