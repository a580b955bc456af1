/**
 * The project card of the gallery (src/pages/projects/ProjectCard.tsx): its
 * picture, its WhatsApp share link and its "Learn More" link.
 */
module ProjectCard {
  import opened Wrappers
  import opened Strings
  import opened ProjectModel
  import opened PublicPath

  const WhatsAppSendPrefix: string := "https://api.whatsapp.com/send?text="
  const MessageLead: string := "Check out this project: "
  const GitHubLabel: string := "\n\nGitHub: "
  const DescriptionLabel: string := "\nDescription: "
  const DetailsRoutePrefix: string := "/projects/"

  /** A router link: its target path and the navigation state it carries. */
  datatype Link = Link(to: string, state: Option<Project>)

  /** What the card renders. */
  datatype CardView = CardView(
    picture: Option<Image>,
    title: string,
    text: string,
    shareHref: string,
    learnMore: Link)

  /**
   * The text handed to the percent-encoder: the lead, the name, the GitHub
   * label, the GitHub link (an absent link contributes nothing), the
   * description label and the description, in that order and nothing else.
   * (`description` is a required field, so its `?? ""` never applies.)
   */
  function ShareMessage(p: Project): (m: string)
    ensures var gh := p.gitHubUrl.GetOr("");
      var a := |MessageLead| + |p.name|;
      var b := a + |GitHubLabel| + |gh|;
      && |m| == b + |DescriptionLabel| + |p.description|
      && m[..|MessageLead|] == MessageLead
      && m[|MessageLead|..a] == p.name
      && m[a..a + |GitHubLabel|] == GitHubLabel
      && m[a + |GitHubLabel|..b] == gh
      && m[b..b + |DescriptionLabel|] == DescriptionLabel
      && m[b + |DescriptionLabel|..] == p.description
  {
    MessageLead + p.name + GitHubLabel + p.gitHubUrl.GetOr("") + DescriptionLabel + p.description
  }

  /** Leaving `gitHubUrl` out and setting it to "" give the same message. */
  lemma ShareMessageAbsentGitHub(p: Project)
    ensures ShareMessage(p.(gitHubUrl := None)) == ShareMessage(p.(gitHubUrl := Some("")))
    ensures ShareMessage(p.(gitHubUrl := None)) == MessageLead + p.name + GitHubLabel + DescriptionLabel + p.description
  {
  }

  /** The first line of `s`: everything before its first newline. */
  function FirstLine(s: string): (r: string)
    ensures |r| <= |s| && r == s[..|r|]
  {
    if |s| == 0 || s[0] == '\n' then "" else [s[0]] + FirstLine(s[1..])
  }

  /** A newline-free string followed by a newline is the first line of the whole. */
  lemma {:induction false} FirstLineOfConcat(a: string, b: string)
    requires Excludes(a, '\n') && |b| > 0 && b[0] == '\n'
    ensures FirstLine(a + b) == a
  {
    if |a| > 0 {
      assert (a + b)[0] == a[0] && (a + b)[1..] == a[1..] + b;
      FirstLineOfConcat(a[1..], b);
    } else {
      assert a + b == b;
    }
  }

  /** The project name a share message announces: the rest of the lead's line. */
  function NameInShareMessage(m: string): (r: Option<string>)
    ensures r.Some? <==> HasPrefix(m, MessageLead)
  {
    if HasPrefix(m, MessageLead) then Some(FirstLine(m[|MessageLead|..])) else None
  }

  /** A single-line name is recovered from the message it produced. */
  lemma ShareMessageNameRoundTrip(p: Project)
    requires Excludes(p.name, '\n')
    ensures NameInShareMessage(ShareMessage(p)) == Some(p.name)
  {
    var m := ShareMessage(p);
    var rest := GitHubLabel + p.gitHubUrl.GetOr("") + DescriptionLabel + p.description;
    assert m == MessageLead + (p.name + rest);
    assert m[|MessageLead|..] == p.name + rest;
    FirstLineOfConcat(p.name, rest);
  }

  /** Two equal messages name projects with the same single-line name. */
  lemma ShareMessageDeterminesName(p: Project, q: Project)
    requires Excludes(p.name, '\n') && Excludes(q.name, '\n')
    requires ShareMessage(p) == ShareMessage(q)
    ensures p.name == q.name
  {
    ShareMessageNameRoundTrip(p);
    ShareMessageNameRoundTrip(q);
  }

  /**
   * The share URL: the WhatsApp send prefix followed by `encode` of the
   * message, `encode` standing for `encodeURIComponent`.
   */
  function WhatsAppShareUrl(p: Project, encode: string -> string): (u: string)
    ensures HasPrefix(u, WhatsAppSendPrefix)
    ensures u[|WhatsAppSendPrefix|..] == encode(ShareMessage(p))
  {
    WhatsAppSendPrefix + encode(ShareMessage(p))
  }

  /** Whatever decodes the encoder's output recovers the message from the share URL. */
  lemma ShareUrlCarriesMessage(p: Project, encode: string -> string, decode: string -> string)
    requires forall m :: decode(encode(m)) == m
    ensures decode(WhatsAppShareUrl(p, encode)[|WhatsAppSendPrefix|..]) == ShareMessage(p)
  {
  }

  /** Under an injective encoder, equal share URLs mean equal messages. */
  lemma ShareUrlDeterminesMessage(p: Project, q: Project, encode: string -> string)
    requires forall m, m' :: encode(m) == encode(m') ==> m == m'
    requires WhatsAppShareUrl(p, encode) == WhatsAppShareUrl(q, encode)
    ensures ShareMessage(p) == ShareMessage(q)
  {
    var u, n := WhatsAppShareUrl(p, encode), |WhatsAppSendPrefix|;
    assert encode(ShareMessage(p)) == u[n..] == encode(ShareMessage(q));
  }

  /** The "Learn More" link: the details route of the project, carrying the project itself. */
  function LearnMoreLink(p: Project): (l: Link)
    ensures HasPrefix(l.to, DetailsRoutePrefix) && l.to[|DetailsRoutePrefix|..] == p.id
    ensures l.state == Some(p)
  {
    Link(DetailsRoutePrefix + p.id, Some(p))
  }

  /**
   * The card's picture source as written: the raw `pictureUrl`, not placed
   * under the base URL.
   */
  function CardPictureSrcAsWritten(p: Project): (src: string)
    requires Truthy(p.pictureUrl)
    ensures Some(src) == p.pictureUrl && src != ""
  {
    p.pictureUrl.value
  }

  /**
   * A root-relative picture such as the table's "/images/..." does not lie
   * under the configured base URL when used as written.
   */
  lemma CardPictureAsWrittenMissesBase(p: Project)
    requires Truthy(p.pictureUrl) && HasPrefix(p.pictureUrl.value, "/images/")
    ensures !HasPrefix(CardPictureSrcAsWritten(p), BaseUrl)
  {
    var src := CardPictureSrcAsWritten(p);
    assert src[1] == "/images/"[1] == 'i';
    assert BaseUrl[1] == 'h';
  }

  /**
   * The card's picture source as evidently intended: resolved under the base
   * URL, as the details page resolves the same field.
   */
  function CardPictureSrc(p: Project): (src: string)
    requires Truthy(p.pictureUrl)
    ensures HasPrefix(src, BaseUrl) && IsSlashStripped(p.pictureUrl.value, src[|BaseUrl|..])
  {
    ResolvePublicPath(BaseUrl, p.pictureUrl)
  }

  /**
   * The whole card, as written: the picture block only for a truthy
   * `pictureUrl`, loading the raw path; `encode` stands for
   * `encodeURIComponent`.
   */
  function RenderCard(p: Project, encode: string -> string): (v: CardView)
    ensures v.picture.Some? <==> Truthy(p.pictureUrl)
    ensures v.picture.Some? ==> v.picture.value == Image(CardPictureSrcAsWritten(p), p.name)
    ensures v.title == p.name && v.text == p.description
    ensures v.shareHref == WhatsAppShareUrl(p, encode)
    ensures v.learnMore == LearnMoreLink(p)
  {
    CardView(
      picture := if Truthy(p.pictureUrl) then Some(Image(CardPictureSrcAsWritten(p), p.name)) else None,
      title := p.name,
      text := p.description,
      shareHref := WhatsAppShareUrl(p, encode),
      learnMore := LearnMoreLink(p))
  }
}
