/** The navigation the search bar's effect performs
    (components/Searchbar.tsx): given the debounced search text and the
    current pathname, which route, if any, it pushes. */
module Search {
  import opened Outcomes

  const Discover := "/discover"

  /** The search text is appended to this verbatim, without URL encoding. */
  const SearchPrefix := "/discover?search="

  /** What one run of the effect does: one `router.push(url)`, or nothing.
      A run can push at most once. */
  datatype Navigation = Stay | Push(url: string)

  /** The search text a pushed URL carries: what follows `SearchPrefix`,
      or the empty text on the bare discover page. */
  function SearchTerm(url: string): Option<string>
  {
    if SearchPrefix <= url then Some(url[|SearchPrefix|..])
    else if url == Discover then Some("")
    else None
  }

  /** The pathname of a URL: everything before its first `?`. */
  function PathOf(url: string): string
  {
    if url == [] || url[0] == '?' then [] else [url[0]] + PathOf(url[1..])
  }

  lemma {:induction false} PathOfPlain(path: string)
    requires '?' !in path
    ensures PathOf(path) == path
  {
    if path != [] {
      PathOfPlain(path[1..]);
    }
  }

  lemma {:induction false} PathOfQuery(path: string, query: string)
    requires '?' !in path
    ensures PathOf(path + "?" + query) == path
  {
    if path != [] {
      assert (path + "?" + query)[1..] == path[1..] + "?" + query;
      PathOfQuery(path[1..], query);
    } else {
      assert (path + "?" + query)[0] == '?';
    }
  }

  /** A non-empty text searches the discover page for it; an empty text
      returns to the bare discover page when on it, and otherwise does
      nothing. */
  function SearchNavigation(debounced: string, pathname: string): (nav: Navigation)
    ensures nav == Stay <==> debounced == "" && pathname != Discover
    ensures nav.Push? ==> PathOf(nav.url) == Discover
    ensures nav.Push? ==> SearchTerm(nav.url) == Some(debounced)
    // an empty text on the discover page returns to the bare page
    ensures debounced == "" && pathname == Discover ==> nav == Push(Discover)
  {
    if debounced != "" then
      PathOfQuery(Discover, "search=" + debounced);
      assert SearchPrefix + debounced == Discover + "?" + ("search=" + debounced);
      assert (SearchPrefix + debounced)[|SearchPrefix|..] == debounced;
      Push(SearchPrefix + debounced)
    else if pathname == Discover then
      PathOfPlain(Discover);
      Push(Discover)
    else
      Stay
  }

  /** Distinct search texts lead to distinct URLs. */
  lemma SearchNavigationInjective(a: string, b: string, pathname: string)
    requires SearchNavigation(a, pathname) == SearchNavigation(b, pathname) != Stay
    ensures a == b
  {
    assert SearchTerm(SearchNavigation(a, pathname).url) == Some(a);
  }

  /** After a push the pathname becomes `/discover`, the effect runs again
      and pushes the same URL, after which the pathname no longer changes:
      the effect comes to rest after at most one repeated push. */
  lemma NavigationSettles(debounced: string, pathname: string)
    requires SearchNavigation(debounced, pathname).Push?
    ensures SearchNavigation(debounced, PathOf(SearchNavigation(debounced, pathname).url))
         == SearchNavigation(debounced, pathname)
  {
  }
}
