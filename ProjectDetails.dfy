/**
 * The project details page (src/pages/projects/ProjectDetails.tsx): which
 * project it shows, and what it shows of it.
 */
module ProjectDetails {
  import opened Wrappers
  import opened Strings
  import opened ProjectModel
  import opened ProjectTable
  import opened PublicPath

  /** The route both the not-found action and the Back action navigate to. */
  const ProjectsRoute: string := "/projects"

  /** What the page renders. */
  datatype DetailsView =
    | NotFound(message: string, backTo: string)
    | Found(
        image: Option<Image>,
        title: string,
        body: string,
        codeHref: Option<string>,
        backTo: string)

  /**
   * `ps.find((p) => p.id === id)`. The route id is `None` when the route has
   * no `id` parameter, and then no record matches.
   */
  function Find(ps: seq<Project>, id: Option<string>): (r: Option<Project>)
    ensures r.Some? ==> r.value in ps && Some(r.value.id) == id
    ensures r.None? <==> forall i | 0 <= i < |ps| :: Some(ps[i].id) != id
  {
    if |ps| == 0 then None
    else if Some(ps[0].id) == id then Some(ps[0])
    else Find(ps[1..], id)
  }

  /** The first record whose id matches is the one found. */
  lemma {:induction false} FindReturnsFirstMatch(ps: seq<Project>, id: Option<string>, i: nat)
    requires i < |ps| && Some(ps[i].id) == id
    requires forall j | 0 <= j < i :: Some(ps[j].id) != id
    ensures Find(ps, id) == Some(ps[i])
  {
    if i > 0 {
      assert forall j | 0 <= j < i - 1 :: ps[1..][j] == ps[j + 1];
      FindReturnsFirstMatch(ps[1..], id, i - 1);
    }
  }

  /** With distinct ids, looking up a record's own id finds exactly that record. */
  lemma FindByOwnId(ps: seq<Project>, p: Project)
    requires DistinctIds(ps) && p in ps
    ensures Find(ps, Some(p.id)) == Some(p)
  {
    var i :| 0 <= i < |ps| && ps[i] == p;
    FindReturnsFirstMatch(ps, Some(p.id), i);
  }

  /**
   * `stateProject ?? projectsData.find((p) => p.id === params.id) ?? null`:
   * a project carried by navigation state wins; otherwise the table is
   * searched by the route id; `None` is the null result.
   */
  function ResolveProject(state: Option<Project>, routeId: Option<string>): (r: Option<Project>)
    ensures state.Some? ==> r == state
    ensures state.None? && r.Some? ==> r.value in ProjectsData && Some(r.value.id) == routeId
    ensures state.None? ==> (r.None? <==> forall i | 0 <= i < |ProjectsData| :: Some(ProjectsData[i].id) != routeId)
  {
    if state.Some? then state else Find(ProjectsData, routeId)
  }

  /** Without navigation state, the project shown for a table id is the table record with that id. */
  lemma ResolveByTableId(p: Project)
    requires p in ProjectsData
    ensures ResolveProject(None, Some(p.id)) == Some(p)
  {
    ProjectsDataWellFormed();
    FindByOwnId(ProjectsData, p);
  }

  /** The page for a resolved project. */
  function ShowProject(p: Project): (v: DetailsView)
    ensures v.Found? && v.title == p.name && v.backTo == ProjectsRoute
    ensures v.image.Some? <==> Truthy(p.pictureUrl)
    ensures v.image.Some? ==> v.image.value.alt == p.name && v.image.value.src == ResolvePublicPath(BaseUrl, p.pictureUrl)
    ensures v.body == (if p.detail.Some? then p.detail.value else p.description)
    ensures v.codeHref.Some? <==> Truthy(p.gitHubUrl)
    ensures v.codeHref.Some? ==> Some(v.codeHref.value) == p.gitHubUrl
  {
    Found(
      image := if Truthy(p.pictureUrl) then Some(Image(ResolvePublicPath(BaseUrl, p.pictureUrl), p.name)) else None,
      title := p.name,
      body := p.detail.GetOr(p.description),
      codeHref := if Truthy(p.gitHubUrl) then Some(p.gitHubUrl.value) else None,
      backTo := ProjectsRoute)
  }

  /** The whole page, from the navigation state and the route id. */
  function RenderDetails(state: Option<Project>, routeId: Option<string>): (v: DetailsView)
    ensures v.backTo == ProjectsRoute
    ensures v.NotFound? <==> state.None? && forall i | 0 <= i < |ProjectsData| :: Some(ProjectsData[i].id) != routeId
    ensures v.NotFound? ==> v.message == "Project not found"
  {
    match ResolveProject(state, routeId)
    case None => NotFound("Project not found", ProjectsRoute)
    case Some(p) => ShowProject(p)
  }

  /** A project passed in navigation state is shown whatever the route id says. */
  lemma StateProjectWins(p: Project, routeId: Option<string>, otherId: Option<string>)
    ensures RenderDetails(Some(p), routeId) == ShowProject(p)
    ensures RenderDetails(Some(p), routeId) == RenderDetails(Some(p), otherId)
  {
  }

  /**
   * Every table record, reached by its id alone, is shown as a whole page of
   * its own, with its image (under the base URL), its Code button and its
   * detail text.
   */
  lemma TableProjectFullyShown(p: Project)
    requires p in ProjectsData
    ensures RenderDetails(None, Some(p.id)) == ShowProject(p)
    ensures var v := RenderDetails(None, Some(p.id));
      && v.Found?
      && v.image.Some? && HasPrefix(v.image.value.src, BaseUrl)
      && v.codeHref.Some? && Some(v.codeHref.value) == p.gitHubUrl
      && p.detail.Some? && v.body == p.detail.value
  {
    ResolveByTableId(p);
    ProjectsDataWellFormed();
  }
}
