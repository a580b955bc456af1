# cosmic-portfolio: the project pages, modelled in Dafny

The portfolio site is mostly presentational React. Its few rules of its own are modelled here as pure functions over strings and records:

- **Public-path resolution** (`PublicPath`). `resolvePublicPath` maps an absent or empty path to `""`. It maps any other path to the build's base URL followed by the path without its leading slashes. The base URL is a parameter of `ResolvePublicPath`. `BaseUrl` holds the value configured in `vite.config.ts`.
- **Shared string predicates** (`Strings`). These are JavaScript truthiness of an optional string, prefixes and absent characters.
- **The project record and table** (`ProjectModel`, `ProjectTable`). A `Project` has a required id, name and description. Its detail text, picture, GitHub link and live URL are optional. The six records of `projectsData` are constants, texts included.
- **The details page** (`ProjectDetails`). It picks the project to show: the one in navigation state, else the first table record whose id equals the route id, else "Project not found". It also models what the page shows of that project: an image only for a truthy picture, `detail ?? description` as the body, a Code link only for a truthy GitHub URL, and back navigation to `/projects`.
- **The gallery card** (`ProjectCard`). It builds the WhatsApp share URL around an encoded message and the "Learn More" link. It decides whether the picture block is shown.
- **Between the two pages** (`Navigation`). A card's link leads to its project's page. A direct visit to that address shows the same page for table projects. A share URL identifies its project.

Conventions: an optional TypeScript field is an `Option<string>`. `??` falls back only on `None`. JavaScript truthiness of an optional string (`Truthy`) means present and non-empty. `encodeURIComponent` (percent-encoding, section 2.1 of RFC 3986) is the function parameter `encode`. Where a property needs the encoder to be injective or invertible, that is a precondition.

## Model

| member | source | states |
|---|---|---|
| `PublicPath.StripLeadingSlashes` | src/utils/resolvePublicPath.ts:3 | the result is a suffix of the input, everything removed is `/`, and the result does not start with `/` (the replacement of `^\/+`) |
| `PublicPath.SlashStrippedUnique` | src/utils/resolvePublicPath.ts:3 | exactly one string has those three properties, so the strip is fully determined by them |
| `PublicPath.StripKeepsUnslashed` | src/utils/resolvePublicPath.ts:3 | a string without a leading slash is left unchanged |
| `PublicPath.StripIdempotent` | src/utils/resolvePublicPath.ts:3 | stripping an already stripped string changes nothing |
| `PublicPath.StripConsSlash` | src/utils/resolvePublicPath.ts:3 | one more leading slash gives the same stripped string |
| `PublicPath.StripIgnoresSlashCount` | src/utils/resolvePublicPath.ts:3 | any number of extra leading slashes gives the same stripped string |
| `PublicPath.StripAllSlashes` | src/utils/resolvePublicPath.ts:3 | a string made only of slashes strips to `""` |
| `PublicPath.StripPreservesRest` | src/utils/resolvePublicPath.ts:3 | only the leading run of slashes goes; every later character, interior and trailing `/` included, is kept |
| `PublicPath.ResolvePublicPath` | src/utils/resolvePublicPath.ts:1-5 | an absent or empty path gives `""`; otherwise the result starts with the base and its remainder is the path without its leading slashes |
| `PublicPath.ResolveIsBaseThenStripped` | src/utils/resolvePublicPath.ts:3-4 | for a non-empty path the result is exactly the base followed by the stripped path |
| `PublicPath.ResolveIgnoresSlashCount` | src/utils/resolvePublicPath.ts:3-4 | `"a"`, `"/a"`, `"//a"`, ... resolve to the same result |
| `PublicPath.ResolveOnlySlashes` | src/utils/resolvePublicPath.ts:2-4 | a non-empty path of slashes only resolves to the base itself |
| `PublicPath.ResolveUnslashed` | src/utils/resolvePublicPath.ts:3-4 | a non-empty path without a leading slash is appended to the base unchanged |
| `PublicPath.ResolveOfStripped` | src/utils/resolvePublicPath.ts:3-4 | resolving the stripped path gives the same result as resolving the original, when anything is left |
| `PublicPath.ResolvedJoinHasOneSlash` | vite.config.ts:5 | under the configured base, which ends in `/`, there is exactly one `/` where the base and the path meet |
| `ProjectTable.MyZoneWellFormed` | src/data/projectsData.ts:5-28 | this record's id starts with `proj-` and has no `/`, its name is one line, and its picture (under `/images/`), GitHub link and detail are set |
| `ProjectTable.ImageGalleryWellFormed` | src/data/projectsData.ts:29-46 | the same facts for the second record |
| `ProjectTable.ChatAppWellFormed` | src/data/projectsData.ts:47-64 | the same facts for the third record |
| `ProjectTable.BugWorldWellFormed` | src/data/projectsData.ts:65-83 | the same facts for the fourth record |
| `ProjectTable.BinaryTreeWellFormed` | src/data/projectsData.ts:84-99 | the same facts for the fifth record |
| `ProjectTable.NumberGuessWellFormed` | src/data/projectsData.ts:100-115 | the same facts for the sixth record |
| `ProjectTable.ProjectsDataRecordWellFormed` | src/data/projectsData.ts:4-116 | every record of the table has those facts |
| `ProjectTable.ProjectsDataDistinctIds` | src/data/projectsData.ts:4-116 | the six ids are pairwise distinct |
| `ProjectTable.ProjectsDataDistinctNames` | src/data/projectsData.ts:4-116 | the six names are pairwise distinct |
| `ProjectTable.ProjectsDataWellFormed` | src/data/projectsData.ts:4-116 | the table holds six records with distinct ids, and every record is well formed |
| `ProjectDetails.Find` | src/pages/projects/ProjectDetails.tsx:17 | a found record is in the table and has the route id; nothing is found exactly when no record has the route id |
| `ProjectDetails.FindReturnsFirstMatch` | src/pages/projects/ProjectDetails.tsx:17 | the record found is the first one whose id matches |
| `ProjectDetails.FindByOwnId` | src/pages/projects/ProjectDetails.tsx:17 | in a table with distinct ids, looking up a record's own id finds exactly that record |
| `ProjectDetails.ResolveProject` | src/pages/projects/ProjectDetails.tsx:15-17 | a state project wins; without one, the result is a table record with the route id, and it is null exactly when no record has that id |
| `ProjectDetails.ResolveByTableId` | src/pages/projects/ProjectDetails.tsx:17 | without state, each table id resolves to its own record |
| `ProjectDetails.ShowProject` | src/pages/projects/ProjectDetails.tsx:42-103 | the image is shown iff `pictureUrl` is truthy, with source `resolvePublicPath(pictureUrl)`; the body is `detail` when present, even if empty, else `description`; the Code link is shown iff `gitHubUrl` is truthy and targets it; Back goes to `/projects` |
| `ProjectDetails.RenderDetails` | src/pages/projects/ProjectDetails.tsx:15-28 | "Project not found" is shown exactly when there is no state and no record has the route id; both back actions go to `/projects` |
| `ProjectDetails.StateProjectWins` | src/pages/projects/ProjectDetails.tsx:15-17 | with a project in navigation state, the page shows it whatever the route id |
| `ProjectDetails.TableProjectFullyShown` | src/pages/projects/ProjectDetails.tsx:42-86 | a table project reached by its id alone is shown as exactly its own page, with its image under the base URL, its Code link and its detail text |
| `ProjectCard.ShareMessage` | src/pages/projects/ProjectCard.tsx:21-23 | the message is the lead, name, `\n\nGitHub: `, link, `\nDescription: ` and description, in that order, and nothing else |
| `ProjectCard.ShareMessageAbsentGitHub` | src/pages/projects/ProjectCard.tsx:22 | an absent GitHub link contributes the empty string |
| `ProjectCard.NameInShareMessage` | src/pages/projects/ProjectCard.tsx:21 | a name is read back exactly from strings that begin with the message lead |
| `ProjectCard.ShareMessageNameRoundTrip` | src/pages/projects/ProjectCard.tsx:21-23 | reading the name back from a message gives the single-line name it was built from |
| `ProjectCard.ShareMessageDeterminesName` | src/pages/projects/ProjectCard.tsx:21-23 | equal messages mean equal single-line names |
| `ProjectCard.WhatsAppShareUrl` | src/pages/projects/ProjectCard.tsx:20-24 | the URL begins with `https://api.whatsapp.com/send?text=`, and the rest is the encoding of the message |
| `ProjectCard.ShareUrlCarriesMessage` | src/pages/projects/ProjectCard.tsx:20-24 | decoding what follows the prefix recovers the message |
| `ProjectCard.ShareUrlDeterminesMessage` | src/pages/projects/ProjectCard.tsx:20-24 | with an injective encoder, equal share URLs mean equal messages |
| `ProjectCard.LearnMoreLink` | src/pages/projects/ProjectCard.tsx:130-132 | the target is `/projects/` followed by the id, and the link carries the project as navigation state |
| `ProjectCard.CardPictureSrcAsWritten` | src/pages/projects/ProjectCard.tsx:41-53 | the card's image source is the raw, non-empty `pictureUrl` |
| `ProjectCard.CardPictureAsWrittenMissesBase` | src/pages/projects/ProjectCard.tsx:53 | a picture path under `/images/`, used as written, is not under the configured base URL |
| `ProjectCard.CardPictureSrc` | src/pages/projects/ProjectDetails.tsx:45 | the corrected card picture source starts with the base URL, followed by the picture path without its leading slashes |
| `ProjectCard.RenderCard` | src/pages/projects/ProjectCard.tsx:19-145 | the picture block appears iff `pictureUrl` is truthy, loading the raw `pictureUrl` with the name as alt; the card shows name and description, shares the WhatsApp URL and links to the details route |
| `Navigation.DetailsRouteId` | src/App.tsx:25 | a path yields a route id only if it is `/projects/` (matched case-sensitively) followed by one non-empty segment |
| `Navigation.LearnMoreRouteId` | src/pages/projects/ProjectCard.tsx:131 | the route id read back from a card's link target is the card's project id |
| `Navigation.LearnMoreShowsCardProject` | src/pages/projects/ProjectCard.tsx:131-132 | following "Learn More" shows the card's own project |
| `Navigation.DirectVisitMatchesLearnMore` | src/pages/projects/ProjectDetails.tsx:15-17 | for a table project, opening the link target without state shows the same page as following the link |
| `Navigation.CardAndDetailsPicturesAgree` | src/pages/projects/ProjectDetails.tsx:42-45 | the corrected card source is exactly the source the details page loads |
| `Navigation.CardPictureAsWrittenDiffersFromDetails` | src/pages/projects/ProjectCard.tsx:53 | as written, the rendered card loads every table picture from another source than the details page |
| `Navigation.TableShareUrlsDistinct` | src/pages/projects/ProjectCard.tsx:20-24 | with an injective encoder, the six table projects get six different share URLs |

## Findings

| source | as written | input that shows it | evidently intended | confidence | as-written member | corrected member |
|---|---|---|---|---|---|---|
| src/pages/projects/ProjectCard.tsx:53 | the card's `<img src>` is the raw `pictureUrl` | any table record, e.g. `/images/myzone.jpg`: the card loads `/images/myzone.jpg`, but the details page loads `BaseUrl` + `images/myzone.jpg`, and the configured base is not `/` | the card resolves the picture with `resolvePublicPath`, as the details page does (src/pages/projects/ProjectDetails.tsx:45) | medium, not executed | `ProjectCard.CardPictureSrcAsWritten`, `ProjectCard.RenderCard`, `Navigation.CardPictureAsWrittenDiffersFromDetails` | `ProjectCard.CardPictureSrc`, `Navigation.CardAndDetailsPicturesAgree` |

`ProjectCard.RenderCard` renders the picture as written. The corrected source is `ProjectCard.CardPictureSrc`.

## Left out

- src/components/Starfield.tsx: not modelled. It is floating-point trigonometry, random placement, shaders and per-frame rendering callbacks over three.js.
- src/App.tsx: route matching is react-router's, and only the `:id` segment of the details route is modelled. The `"*"` redirect to home is not modelled.
- Navigation.DetailsRouteId: does not percent-decode the segment and does not accept a trailing slash, as react-router does. Table ids contain neither `%` nor `/`. It also matches `/projects/` case-sensitively, where react-router ignores case by default, so a path such as `/PROJECTS/proj-myzone` finds no project in the model but shows My Zone in the browser.
- `encodeURIComponent`: not defined. It is the parameter `encode`, and its injectivity or inverse is assumed where a lemma needs it.
- The regular expression `^\/+`: not interpreted. It is modelled directly as the removal of the leading run of `/` characters.
- ProjectCard.ShareMessage: `project.description ?? ""` never falls back. `description` is a required string in src/app/models/project.ts:4, so the model has no absent description.
- src/pages/Home.tsx, TechStacks.tsx, Certifications.tsx, Contact.tsx, NavBar.tsx, ProjectList.tsx and ProjectLibrary.tsx: not modelled. They are static content and layout that render fixed lists.
- scripts/copy-index-to-404.js: not modelled. It is file-system I/O.
- Styling, icons, `target="_blank"` and the effect of `navigate(...)`: not modelled. Navigation is represented only by its target path.
- The `url` field is carried in each record. Neither page reads it.
- vite.config.ts: only its `base` is used, as the constant `BaseUrl`. `BaseUrl` is the single literal of line 5 written in two pieces, because the verifier cannot index near the front of a long string literal.
