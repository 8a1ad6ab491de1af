/**
 * The address-bar side of the products page: the query `updateURL` writes for the current
 * configuration, and the way `init` seeds the configuration from the query it finds. Query
 * strings are kept as their list of name/value pairs; percent-encoding is not modelled.
 */
module Url {
  import opened Options
  import opened Filters

  type Param = (string, string)

  /** What `history.replaceState` is given: the bare pathname, or `?` and a query. */
  datatype Address = Path(pathname: string) | Query(params: seq<Param>)

  /** The parameters `updateURL` sets, in the order it sets them. */
  function QueryParams(f: Config): seq<Param>
  {
    (if f.category != "all" then [("category", f.category)] else []) +
    (if f.search != "" then [("search", f.search)] else [])
  }

  /** The parameters `window.location.search` carries for an address; a bare path has none. */
  function QueryOf(a: Address): seq<Param>
  {
    match a
    case Path(_) => []
    case Query(params) => params
  }

  /** `updateURL`: the query when there is one, the bare pathname otherwise. */
  function UrlFor(f: Config, pathname: string): (r: Address)
    ensures r.Path? <==> QueryParams(f) == []
    ensures r.Path? ==> r.pathname == pathname
    ensures r.Query? ==> r.params == QueryParams(f)
  {
    var params := QueryParams(f);
    if params == [] then Path(pathname) else Query(params)
  }

  /** `URLSearchParams.get(name)`: the first value given for the name, or `null`. */
  function Get(params: seq<Param>, name: string): (r: Option<string>)
    ensures r.None? <==> forall i :: 0 <= i < |params| ==> params[i].0 != name
    ensures r.Some? ==> exists i :: 0 <= i < |params| && params[i] == (name, r.value) &&
                                    forall j :: 0 <= j < i ==> params[j].0 != name
  {
    if params == [] then None
    else if params[0].0 == name then Some(params[0].1)
    else Get(params[1..], name)
  }

  /**
   * `init`: a non-empty `category` or `search` parameter replaces that part of the configuration,
   * and nothing else changes it.
   */
  function Seeded(f: Config, params: seq<Param>): (r: Config)
    ensures r.(category := f.category, search := f.search) == f
    ensures r.category != f.category ==> Get(params, "category") == Some(r.category) && r.category != ""
    ensures r.search != f.search ==> Get(params, "search") == Some(r.search) && r.search != ""
    ensures Get(params, "category").Some? && Get(params, "category").value != "" ==>
              r.category == Get(params, "category").value
    ensures Get(params, "search").Some? && Get(params, "search").value != "" ==>
              r.search == Get(params, "search").value
  {
    var c := Get(params, "category");
    var s := Get(params, "search");
    f.(category := if c.Some? && c.value != "" then c.value else f.category,
       search := if s.Some? && s.value != "" then s.value else f.search)
  }

  /**
   * The URL carries `category` exactly when the category is not `all`, and `search` exactly when
   * the search text is not empty, each with the configured value; with neither it is the bare
   * pathname.
   */
  lemma UrlParameters(f: Config, pathname: string)
    ensures Get(QueryParams(f), "category") == if f.category != "all" then Some(f.category) else None
    ensures Get(QueryParams(f), "search") == if f.search != "" then Some(f.search) else None
    ensures UrlFor(f, pathname) == Path(pathname) <==> f.category == "all" && f.search == ""
    ensures UrlFor(f, pathname).Query? ==> UrlFor(f, pathname).params == QueryParams(f)
  {
    var params := QueryParams(f);
    if f.category != "all" {
      assert params[0] == ("category", f.category);
      if f.search != "" {
        assert params[1..] == [("search", f.search)];
      }
    } else if f.search != "" {
      assert params == [("search", f.search)];
    }
  }

  /**
   * Loading the URL `updateURL` wrote restores the category and search text it was written
   * for (a category id is never empty).
   */
  lemma UrlRoundTrip(f: Config)
    requires f.category != ""
    ensures Seeded(Default, QueryParams(f)).category == f.category
    ensures Seeded(Default, QueryParams(f)).search == f.search
  {
    UrlParameters(f, "");
  }

  /**
   * Reloading the address `updateURL` wrote, on a fresh page, seeds the category and search text
   * it was written for.
   */
  lemma ReloadRoundTrip(f: Config, pathname: string)
    requires f.category != ""
    ensures Seeded(Default, QueryOf(UrlFor(f, pathname))).category == f.category
    ensures Seeded(Default, QueryOf(UrlFor(f, pathname))).search == f.search
  {
    assert QueryOf(UrlFor(f, pathname)) == QueryParams(f);
    UrlRoundTrip(f);
  }
}
