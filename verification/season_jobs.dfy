/**
 * The user shape the older add screens (`feature/add`) were written
 * against: a user whose info lists season jobs, each pairing a job with
 * the season it belongs to. The data layer modelled here has no such
 * types; only the fields those screens read are kept.
 */
module SeasonJobs {
  import opened Common

  datatype Season = Season(id: string, current: bool)

  /** The job of a season job; the screens only read its `uid`. */
  datatype SeasonJobJob = SeasonJobJob(uid: string)

  datatype SeasonJob = SeasonJob(job: SeasonJobJob, season: Season)

  datatype SeasonUser = SeasonUser(uid: string, seasonJobs: seq<SeasonJob>)

  /**
   * `seasonJobs.first { it.season.current }.season`: the season of the
   * first season job whose season is current; `None` where `first` throws.
   */
  function FirstCurrentSeason(sjs: seq<SeasonJob>): (r: Option<Season>)
    ensures r.None? <==> forall i :: 0 <= i < |sjs| ==> !sjs[i].season.current
    ensures r.Some? ==>
              exists i :: && 0 <= i < |sjs| && sjs[i].season == r.value && r.value.current
                          && forall j :: 0 <= j < i ==> !sjs[j].season.current
  {
    if sjs == [] then None
    else if sjs[0].season.current then
      Some(sjs[0].season)
    else
      var r := FirstCurrentSeason(sjs[1..]);
      assert forall i :: 0 < i < |sjs| ==> sjs[i] == sjs[1..][i - 1];
      if r.Some? then
        var k :| && 0 <= k < |sjs[1..]| && sjs[1..][k].season == r.value && r.value.current
                 && forall j :: 0 <= j < k ==> !sjs[1..][j].season.current;
        assert sjs[k + 1].season == r.value;
        assert forall j :: 0 <= j < k + 1 ==> !sjs[j].season.current;
        r
      else
        r
  }

  /** `seasonJobs.map { it.job.job }`: the jobs, in season-job order. */
  function SeasonJobsJobs(sjs: seq<SeasonJob>): (r: seq<SeasonJobJob>)
    ensures |r| == |sjs|
    ensures forall i :: 0 <= i < |sjs| ==> r[i] == sjs[i].job
  {
    seq(|sjs|, i requires 0 <= i < |sjs| => sjs[i].job)
  }
}
