/**
 * The project record of src/app/models/project.ts: three required strings and
 * four optional ones.
 */
module ProjectModel {
  import opened Wrappers

  datatype Project = Project(
    id: string,
    name: string,
    description: string,
    detail: Option<string>,
    pictureUrl: Option<string>,
    gitHubUrl: Option<string>,
    url: Option<string>)

  /** An image element: its source URL and its alternative text. */
  datatype Image = Image(src: string, alt: string)

  /** No two records of the table share an `id`. */
  predicate DistinctIds(ps: seq<Project>) {
    forall i, j | 0 <= i < |ps| && 0 <= j < |ps| && i != j :: ps[i].id != ps[j].id
  }
}
