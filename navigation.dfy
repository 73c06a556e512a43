/** Site navigation: the order of the routes, which link clicks are turned
    into an animated page transition, which way the slide goes, what a
    transition does with the fetched page, and which nav link is marked active. */
module Navigation {

  datatype Option<T> = None | Some(value: T)

  /** Position of each known route, left to right. */
  const RouteOrder: map<string, nat> := map["/" := 0, "/about" := 1, "/contact" := 2]

  /** `ROUTE_ORDER[path] ?? 0`: an unknown path counts as the first route. */
  function OrderOf(path: string): nat
  {
    if path in RouteOrder then RouteOrder[path] else 0
  }

  /** Whether a click on a header link with attribute `href` (None when the
      attribute is absent), resolving to `targetPath`, while the browser is at
      `currentPath`, is intercepted for an animated transition. */
  function Intercepts(href: Option<string>, targetPath: string, currentPath: string): (r: bool)
    ensures r ==> href.Some? && href.value != [] && href.value[0] != '#'
    ensures r ==> targetPath in RouteOrder && targetPath != currentPath
    ensures (href.Some? && href.value != [] && href.value[0] != '#'
             && targetPath in RouteOrder && targetPath != currentPath) ==> r
  {
    if href.None? || href.value == [] || href.value[0] == '#' then false
    else if targetPath !in RouteOrder then false
    else targetPath != currentPath
  }

  /** `goForward`: the slide goes forward iff the target comes later in the route order. */
  function GoForward(currentPath: string, targetPath: string): bool
  {
    OrderOf(targetPath) > OrderOf(currentPath)
  }

  /** Between two different known routes exactly one direction is forward;
      no route is forward of itself; an unknown path behaves as the home route. */
  lemma DirectionProperties(a: string, b: string)
    ensures a in RouteOrder && b in RouteOrder && a != b ==> GoForward(a, b) != GoForward(b, a)
    ensures !GoForward(a, a)
    ensures a !in RouteOrder ==> GoForward(a, b) == GoForward("/", b) && GoForward(b, a) == GoForward(b, "/")
  {
  }

  /** What the fetch of the target page gave: a failure, or a document with
      (maybe) a `.main-content-inner` inside `main.main-content` and (maybe)
      a `main.main-content`, each given by its inner HTML. */
  datatype FetchResult =
    | FetchFailed
    | Fetched(innerOfMain: Option<string>, mainContent: Option<string>)

  /** How a navigation ends: a full page load of `href`, or a slide to `targetPath`. */
  datatype NavOutcome =
    | FullLoad(href: string)
    | Slide(targetPath: string, content: string, forward: bool, fullHref: string)

  /** The content taken from a fetched page: the inner block if present,
      else the whole main element, else nothing. */
  function NewContent(inner: Option<string>, main: Option<string>): string
  {
    if inner.Some? then inner.value else if main.Some? then main.value else ""
  }

  /** `navigateWithTransition`, with the fetch as a parameter: a failed fetch
      or a page without content falls back to a full load of `href`;
      otherwise the page slides in, forward exactly when the target comes
      later in the route order. */
  function Navigate(href: string, targetPath: string, currentPath: string, fetched: FetchResult): (r: NavOutcome)
    ensures r.FullLoad? <==> fetched.FetchFailed? || NewContent(fetched.innerOfMain, fetched.mainContent) == ""
    ensures r.FullLoad? ==> r.href == href
    ensures r.Slide? ==> r.content != "" && r.targetPath == targetPath && r.fullHref == href
                         && r.content == NewContent(fetched.innerOfMain, fetched.mainContent)
                         && (r.forward <==> OrderOf(targetPath) > OrderOf(currentPath))
  {
    var goForward := GoForward(currentPath, targetPath);
    match fetched
    case FetchFailed => FullLoad(href)
    case Fetched(inner, main) =>
      var content := NewContent(inner, main);
      if content == "" then FullLoad(href) else Slide(targetPath, content, goForward, href)
  }

  /** The test `highlightActiveNav` applies to one link. */
  function NavLinkActive(href: Option<string>, currentPath: string): bool
  {
    href == Some(currentPath) || (currentPath == "/" && href == Some("/"))
  }

  /** The second disjunct of the test adds nothing: a link is active exactly
      when its href is the current path. */
  lemma NavLinkActiveIffSamePath(href: Option<string>, currentPath: string)
    ensures NavLinkActive(href, currentPath) <==> href == Some(currentPath)
  {
  }

  /** `highlightActiveNav`: each link loses the mark, then gets it back iff
      its href equals the current path; one flag per link, in order. */
  method HighlightActiveNav(hrefs: seq<Option<string>>, currentPath: string) returns (active: seq<bool>)
    ensures |active| == |hrefs|
    ensures forall i :: 0 <= i < |hrefs| ==> (active[i] <==> hrefs[i] == Some(currentPath))
  {
    active := [];
    var i := 0;
    while i < |hrefs|
      invariant 0 <= i <= |hrefs|
      invariant |active| == i
      invariant forall j :: 0 <= j < i ==> (active[j] <==> hrefs[j] == Some(currentPath))
    {
      var mark := false;
      if NavLinkActive(hrefs[i], currentPath) {
        mark := true;
      }
      active := active + [mark];
      i := i + 1;
    }
  }
}
