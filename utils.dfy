/** `absoluteUrl` and `constructMetadata` of src/lib/utils.ts. */
module Utils {
  import opened Wrappers

  /** What `absoluteUrl` reads of its surroundings: whether `window` exists, and the
      environment variables `VERCEL_APP`, `VERCEL_URL` and `PORT` (None when unset). */
  datatype Env = Env(windowDefined: bool, vercelApp: Option<string>, vercelUrl: Option<string>, port: Option<string>)

  /** A string environment variable is truthy when it is set and not empty. */
  predicate Truthy(v: Option<string>) {
    v.Some? && v.value != ""
  }

  /** `${v}` in a template string: an unset variable prints as `undefined`. */
  function Interpolate(v: Option<string>): string {
    if v.None? then "undefined" else v.value
  }

  /** `absoluteUrl(path)` */
  function AbsoluteUrl(path: string, env: Env): (url: string)
    ensures env.windowDefined ==> url == path
    ensures !env.windowDefined && Truthy(env.vercelApp) ==> url == "https://" + Interpolate(env.vercelUrl) + path
    ensures !env.windowDefined && !Truthy(env.vercelApp) ==>
      url == "http://localhost:" + env.port.GetOr("3000") + path
  {
    if env.windowDefined then path
    else if Truthy(env.vercelApp) then "https://" + Interpolate(env.vercelUrl) + path
    else "http://localhost:" + env.port.GetOr("3000") + path
  }

  /** Whatever the environment, the URL ends with `path`, and only the browser gets it
      bare. */
  lemma AbsoluteUrlEndsWithPath(path: string, env: Env)
    ensures var url := AbsoluteUrl(path, env);
      |url| >= |path| && url[|url| - |path|..] == path
      && (url == path <== env.windowDefined)
      && (!env.windowDefined ==> |url| > |path|)
  {
    var url := AbsoluteUrl(path, env);
    var prefix := url[..|url| - |path|];
    if !env.windowDefined {
      if Truthy(env.vercelApp) {
        assert url == ("https://" + Interpolate(env.vercelUrl)) + path;
      } else {
        assert url == ("http://localhost:" + env.port.GetOr("3000")) + path;
      }
    }
  }

  /** The optional argument of `constructMetadata`: None for a field left undefined. */
  datatype MetadataArgs = MetadataArgs(
    title: Option<string>, description: Option<string>, image: Option<string>,
    icons: Option<string>, noIndex: Option<bool>)

  const NO_ARGS: MetadataArgs := MetadataArgs(None, None, None, None, None)

  const DEFAULT_TITLE: string := "Quill - the SaaS for professionals."
  const DEFAULT_DESCRIPTION: string := "Quill is an open-source software to make chatting to your PDF files easy."
  const DEFAULT_IMAGE: string := "/thumbnail.png"
  const DEFAULT_ICONS: string := "/favicon.ico"

  datatype OpenGraphImage = OpenGraphImage(url: string)
  datatype OpenGraph = OpenGraph(title: string, description: string, images: seq<OpenGraphImage>)
  datatype Twitter = Twitter(card: string, title: string, description: string, images: seq<string>, creator: string)
  datatype Robots = Robots(index: bool, follow: bool)
  datatype Metadata = Metadata(
    title: string, description: string, openGraph: OpenGraph, twitter: Twitter, icons: string,
    metadataBase: string, themeColor: string, robots: Option<Robots>)

  /** `constructMetadata(args)` */
  function ConstructMetadata(args: MetadataArgs): (m: Metadata)
    ensures m.title == args.title.GetOr(DEFAULT_TITLE)
    ensures m.description == args.description.GetOr(DEFAULT_DESCRIPTION)
    ensures m.icons == args.icons.GetOr(DEFAULT_ICONS)
    ensures m.openGraph.title == m.twitter.title == m.title
    ensures m.openGraph.description == m.twitter.description == m.description
    ensures m.openGraph.images == [OpenGraphImage(args.image.GetOr(DEFAULT_IMAGE))]
    ensures m.twitter.images == [args.image.GetOr(DEFAULT_IMAGE)]
    ensures m.twitter.card == "summary_large_image" && m.twitter.creator == "@AdityaS99672050"
    ensures m.metadataBase == "https://quill-pdf-chat.vercel.app" && m.themeColor == "#FFF"
    ensures m.robots.Some? <==> args.noIndex == Some(true)
    ensures m.robots.Some? ==> m.robots.value == Robots(false, false)
  {
    var title := args.title.GetOr(DEFAULT_TITLE);
    var description := args.description.GetOr(DEFAULT_DESCRIPTION);
    var image := args.image.GetOr(DEFAULT_IMAGE);
    var icons := args.icons.GetOr(DEFAULT_ICONS);
    var noIndex := args.noIndex.GetOr(false);
    Metadata(
      title, description,
      OpenGraph(title, description, [OpenGraphImage(image)]),
      Twitter("summary_large_image", title, description, [image], "@AdityaS99672050"),
      icons, "https://quill-pdf-chat.vercel.app", "#FFF",
      if noIndex then Some(Robots(false, false)) else None)
  }

  /** With no argument every default applies and the page stays indexable. */
  lemma DefaultMetadata()
    ensures var m := ConstructMetadata(NO_ARGS);
      && m.title == DEFAULT_TITLE && m.description == DEFAULT_DESCRIPTION
      && m.openGraph.images == [OpenGraphImage("/thumbnail.png")] && m.twitter.images == ["/thumbnail.png"]
      && m.icons == "/favicon.ico" && m.robots.None?
  {
  }
}
