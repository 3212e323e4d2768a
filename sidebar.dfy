/** The active-link rule of the left sidebar and the navigation entries it
    renders, one per configured sidebar link (components/LeftSidebar.tsx). */
module Sidebar {

  /** One element of `sidebarLinks` (its `label` is `labelText` here, as
      `label` is a Dafny keyword). */
  datatype SidebarLink = SidebarLink(imgURL: string, route: string, labelText: string)

  /** One rendered `<Link>`: its `href`, React `key`, icon, label, and
      whether it carries the highlighted (active) style. */
  datatype NavEntry = NavEntry(href: string, key: string, imgURL: string, labelText: string, isActive: bool)

  /** `s.startsWith(prefix)`. */
  predicate StartsWith(s: string, prefix: string)
  {
    prefix <= s
  }

  /** A link is active on its own route and on every page nested under it:
      the pathname is the route, or the route followed by `/` and more. */
  function IsActive(pathname: string, route: string): (active: bool)
    ensures active <==>
      || pathname == route
      || (|route| < |pathname| && pathname[..|route|] == route && pathname[|route|] == '/')
  {
    pathname == route || StartsWith(pathname, route + "/")
  }

  /** A page nested under the route activates its link. */
  lemma NestedPageIsActive(route: string, rest: string)
    ensures IsActive(route + "/" + rest, route)
  {
    assert (route + "/" + rest)[..|route|] == route;
    assert (route + "/" + rest)[|route|] == '/';
  }

  /** A pathname that only extends the route's characters, without a `/`
      after them (route `/discover`, pathname `/discoverx`), does not. */
  lemma SiblingPrefixIsNotActive(route: string, c: char, rest: string)
    requires c != '/'
    ensures !IsActive(route + [c] + rest, route)
  {
    assert (route + [c] + rest)[|route|] == c;
  }

  /** For the root route the prefix test becomes `//`, so on every
      pathname without an empty first segment the home link is active only
      on `/` itself. */
  lemma RootActiveOnlyOnHome(pathname: string)
    requires !StartsWith(pathname, "//")
    ensures IsActive(pathname, "/") <==> pathname == "/"
  {
  }

  /** The `sidebarLinks.map(...)`: one entry per link, in the same order,
      each keyed by its label and marked active by `IsActive`. */
  function NavEntries(pathname: string, links: seq<SidebarLink>): (entries: seq<NavEntry>)
    ensures |entries| == |links|
    ensures forall i :: 0 <= i < |links| ==>
      && entries[i].href == links[i].route
      && entries[i].key == entries[i].labelText == links[i].labelText
      && entries[i].imgURL == links[i].imgURL
      && (entries[i].isActive <==> IsActive(pathname, links[i].route))
  {
    if links == [] then []
    else
      var link := links[0];
      [NavEntry(link.route, link.labelText, link.imgURL, link.labelText, IsActive(pathname, link.route))]
        + NavEntries(pathname, links[1..])
  }
}
