/**
 * How the gallery card and the details page fit together: the card's
 * "Learn More" link leads to the details route of its project
 * ("/projects/:id", src/App.tsx), with the project as navigation state.
 */
module Navigation {
  import opened Wrappers
  import opened Strings
  import opened ProjectModel
  import opened ProjectTable
  import opened PublicPath
  import opened ProjectDetails
  import opened ProjectCard

  /**
   * The `:id` parameter of the details route: a path that is "/projects/"
   * followed by one non-empty segment yields that segment.
   */
  function DetailsRouteId(path: string): (r: Option<string>)
    ensures r.Some? ==> path == DetailsRoutePrefix + r.value && r.value != "" && Excludes(r.value, '/')
  {
    if HasPrefix(path, DetailsRoutePrefix) then
      var rest := path[|DetailsRoutePrefix|..];
      assert path == DetailsRoutePrefix + rest;
      if rest != "" && Excludes(rest, '/') then Some(rest) else None
    else None
  }

  /** The route id read back from a card's link target is the card's project id. */
  lemma LearnMoreRouteId(p: Project)
    requires p.id != "" && Excludes(p.id, '/')
    ensures DetailsRouteId(LearnMoreLink(p).to) == Some(p.id)
  {
    assert (DetailsRoutePrefix + p.id)[|DetailsRoutePrefix|..] == p.id;
  }

  /** Following "Learn More" shows the card's own project, table record or not. */
  lemma LearnMoreShowsCardProject(p: Project)
    ensures var l := LearnMoreLink(p); RenderDetails(l.state, DetailsRouteId(l.to)) == ShowProject(p)
  {
  }

  /**
   * For a table project, opening the link target without navigation state
   * (a shared or typed address) shows the same page as following the link.
   */
  lemma DirectVisitMatchesLearnMore(p: Project)
    requires p in ProjectsData
    ensures var l := LearnMoreLink(p);
      RenderDetails(None, DetailsRouteId(l.to)) == RenderDetails(l.state, DetailsRouteId(l.to))
  {
    ProjectsDataWellFormed();
    LearnMoreRouteId(p);
    ResolveByTableId(p);
  }

  /** With the corrected card source, the card and the details page load the same picture. */
  lemma CardAndDetailsPicturesAgree(p: Project)
    requires Truthy(p.pictureUrl)
    ensures CardPictureSrc(p) == ShowProject(p).image.value.src
  {
  }

  /**
   * As written, the rendered card loads each table picture from a source
   * other than the one the details page loads it from.
   */
  lemma CardPictureAsWrittenDiffersFromDetails(p: Project, encode: string -> string)
    requires p in ProjectsData
    ensures var card := RenderCard(p, encode).picture;
      card.Some? && card.value.src != ShowProject(p).image.value.src
  {
    ProjectsDataWellFormed();
    CardPictureAsWrittenMissesBase(p);
  }

  /** Under an injective encoder, the six table projects have six different share URLs. */
  lemma TableShareUrlsDistinct(encode: string -> string, i: nat, j: nat)
    requires forall m, m' :: encode(m) == encode(m') ==> m == m'
    requires i < |ProjectsData| && j < |ProjectsData| && i != j
    ensures WhatsAppShareUrl(ProjectsData[i], encode) != WhatsAppShareUrl(ProjectsData[j], encode)
  {
    ProjectsDataWellFormed();
    ProjectsDataDistinctNames();
    if WhatsAppShareUrl(ProjectsData[i], encode) == WhatsAppShareUrl(ProjectsData[j], encode) {
      ShareUrlDeterminesMessage(ProjectsData[i], ProjectsData[j], encode);
      ShareMessageDeterminesName(ProjectsData[i], ProjectsData[j]);
      assert false;
    }
  }
}
