/**
 * The app's navigation destinations: each has a route template, a label
 * and a default route, and three of them build concrete routes from a
 * parameter by filling the one placeholder their template ends with.
 */
module Navigation {
  import opened Common
  import opened Text

  /** The `NavigationItem` objects. */
  datatype Destination = Auth | Main | Login | Register | Home | Add | Profile | AddJob | UpdateJob

  /** The route template each destination is registered under. */
  function Route(d: Destination): string {
    match d
    case Auth => "auth"
    case Main => "main"
    case Login => "login"
    case Register => "register"
    case Home => "home"
    case Add => "add/{startTab}"
    case Profile => "profile"
    case AddJob => "addjob/{jobId}"
    case UpdateJob => "updateJob/{jobId}"
  }

  function Label(d: Destination): string {
    match d
    case Auth => "Auth"
    case Main => "Main"
    case Login => "Login"
    case Register => "Register"
    case Home => "Home"
    case Add => "Add"
    case Profile => "Profile"
    case AddJob => "AddJob"
    case UpdateJob => "UpdateJob"
  }

  /** `createDefaultRoute()`: the template, except where a destination overrides it. */
  function CreateDefaultRoute(d: Destination): string {
    match d
    case Add => "add/0"
    case AddJob => "addJob/null"
    case _ => Route(d)
  }

  /** `Add.createRoute(startTab)`. */
  function AddCreateRoute(startTab: int): string {
    "add/" + IntToString(startTab)
  }

  /** `AddJob.createUpdateRoute(jobId)`. */
  function AddJobCreateUpdateRoute(jobId: string): string {
    "addjob/" + jobId
  }

  /** `UpdateJob.createUpdateRoute(jobId)`. */
  function UpdateJobCreateUpdateRoute(jobId: string): string {
    "updateJob/" + jobId
  }

  /** The navigation bar's items, in order. */
  const NavigationBarItems: seq<Destination> := [Home, Add, Profile]

  /** The placeholder `{name}`. */
  function Placeholder(name: string): string {
    "{" + name + "}"
  }

  /**
   * A template with its trailing `{name}` replaced by `value`; `None` when
   * the template does not end with that placeholder.
   */
  function Instantiate(template: string, name: string, value: string): (r: Option<string>)
    ensures r.Some? <==> |Placeholder(name)| <= |template| && template[|template| - |Placeholder(name)|..] == Placeholder(name)
    ensures r.Some? ==> r.value == template[..|template| - |Placeholder(name)|] + value
  {
    var p := Placeholder(name);
    if |p| <= |template| && template[|template| - |p|..] == p then Some(template[..|template| - |p|] + value)
    else None
  }

  /** Filling a template that is a prefix followed by the placeholder puts the value after the prefix. */
  lemma InstantiateTrailing(prefix: string, name: string, value: string)
    ensures Instantiate(prefix + Placeholder(name), name, value) == Some(prefix + value)
  {
    var t := prefix + Placeholder(name);
    assert t[|t| - |Placeholder(name)|..] == Placeholder(name);
    assert t[..|t| - |Placeholder(name)|] == prefix;
  }

  /** The route builders fill their destination's template. */
  lemma RouteBuildersFillTemplates(startTab: int, jobId: string)
    ensures Instantiate(Route(Add), "startTab", IntToString(startTab)) == Some(AddCreateRoute(startTab))
    ensures Instantiate(Route(AddJob), "jobId", jobId) == Some(AddJobCreateUpdateRoute(jobId))
    ensures Instantiate(Route(UpdateJob), "jobId", jobId) == Some(UpdateJobCreateUpdateRoute(jobId))
  {
    assert Route(Add) == "add/" + Placeholder("startTab");
    InstantiateTrailing("add/", "startTab", IntToString(startTab));
    assert Route(AddJob) == "addjob/" + Placeholder("jobId");
    InstantiateTrailing("addjob/", "jobId", jobId);
    assert Route(UpdateJob) == "updateJob/" + Placeholder("jobId");
    InstantiateTrailing("updateJob/", "jobId", jobId);
  }

  /**
   * Default routes: the add screen's default is its route for tab 0, the
   * destinations without parameters default to their template, and the
   * add-job default "addJob/null" is not its template filled with "null"
   * but differs from it only in letter case.
   */
  lemma DefaultRoutes(d: Destination)
    ensures CreateDefaultRoute(Add) == AddCreateRoute(0)
    ensures d != Add && d != AddJob ==> CreateDefaultRoute(d) == Route(d)
    ensures CreateDefaultRoute(AddJob) != AddJobCreateUpdateRoute("null")
    ensures Lowercase(CreateDefaultRoute(AddJob)) == AddJobCreateUpdateRoute("null")
  {
    assert IntToString(0) == NatToString(0) == [DigitChar(0)];
    assert CreateDefaultRoute(AddJob)[3] != AddJobCreateUpdateRoute("null")[3];
    assert Lowercase(CreateDefaultRoute(AddJob)) == AddJobCreateUpdateRoute("null") by {
      var s := CreateDefaultRoute(AddJob);
      var t := AddJobCreateUpdateRoute("null");
      assert |Lowercase(s)| == |t|;
      forall i | 0 <= i < |t|
        ensures Lowercase(s)[i] == t[i]
      {
        assert LowerChar(s[i]) == t[i];
      }
    }
  }

  /** The destination a navigation host registers under template `r`, if any. */
  function DestinationOf(r: string): Option<Destination> {
    if r == "auth" then Some(Auth)
    else if r == "main" then Some(Main)
    else if r == "login" then Some(Login)
    else if r == "register" then Some(Register)
    else if r == "home" then Some(Home)
    else if r == "add/{startTab}" then Some(Add)
    else if r == "profile" then Some(Profile)
    else if r == "addjob/{jobId}" then Some(AddJob)
    else if r == "updateJob/{jobId}" then Some(UpdateJob)
    else None
  }

  /** Every destination's template leads back to that destination. */
  lemma RouteLeadsBack(d: Destination)
    ensures DestinationOf(Route(d)) == Some(d)
  {
  }

  /** No two destinations share a route template. */
  lemma RoutesDistinct(d1: Destination, d2: Destination)
    ensures Route(d1) == Route(d2) ==> d1 == d2
  {
    RouteLeadsBack(d1);
    RouteLeadsBack(d2);
  }

  /** The bar shows Home, Add and Profile, in that order, with their own labels. */
  lemma BarItems()
    ensures |NavigationBarItems| == 3
    ensures seq(3, i requires 0 <= i < 3 => Label(NavigationBarItems[i])) == ["Home", "Add", "Profile"]
  {
  }
}
