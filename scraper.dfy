/**
 * The scraping pipeline: the state directory (`build_state_url_dict`),
 * a state's site list (`get_sites_for_state`), one site's record
 * (`get_site_instance`) and its nearby places (`get_nearby_places`).
 */
module Scraper {
  import opened Wrappers
  import opened Text
  import opened Fetch
  import opened Sites
  import opened Display

  const HOME_URL := "https://www.nps.gov"

  /** One `<li>` of the state drop-down: its text and its link's `href`. */
  datatype StateEntry = StateEntry(text: string, href: string)

  /**
   * The outside world, as functions: `net` is the body of a GET of a URL,
   * `mapquest` that of a radius search; the `...Of` functions stand for
   * the HTML and JSON parsing of a body (`None` where the expected
   * container or key is missing and the source raises); `apiKey` is
   * `secrets.API_KEY`.
   */
  datatype Web = Web(
    net: string -> string,
    menuOf: string -> Option<seq<StateEntry>>,
    listingOf: string -> Option<seq<string>>,
    pageOf: string -> SitePage,
    mapquest: Params -> string,
    resultsOf: string -> Option<seq<SearchResult>>,
    apiKey: string)

  /** The directory the entries give when inserted in order (a later key overwrites). */
  function StateUrls(menu: seq<StateEntry>): map<string, string>
  {
    if menu == [] then map[]
    else
      var last := menu[|menu| - 1];
      StateUrls(menu[..|menu| - 1])[Lower(last.text) := HOME_URL + last.href]
  }

  /** The directory's keys are exactly the lower-cased entry texts. */
  lemma {:induction false} StateUrlsKeys(menu: seq<StateEntry>)
    ensures forall k :: k in StateUrls(menu) <==> exists i :: 0 <= i < |menu| && Lower(menu[i].text) == k
  {
    if menu != [] {
      var init := menu[..|menu| - 1];
      StateUrlsKeys(init);
      forall k | k in StateUrls(menu)
        ensures exists i :: 0 <= i < |menu| && Lower(menu[i].text) == k
      {
        if k != Lower(menu[|menu| - 1].text) {
          assert k in StateUrls(init);
          var i :| 0 <= i < |init| && Lower(init[i].text) == k;
          assert menu[i] == init[i];
        }
      }
      forall i | 0 <= i < |menu|
        ensures Lower(menu[i].text) in StateUrls(menu)
      {
        if i < |init| {
          assert init[i] == menu[i];
        }
      }
    }
  }

  /**
   * The value under an entry's key is the home URL followed by the href of
   * the last entry with that key.
   */
  lemma {:induction false} StateUrlsLastWins(menu: seq<StateEntry>, i: nat)
    requires i < |menu|
    requires forall j :: i < j < |menu| ==> Lower(menu[j].text) != Lower(menu[i].text)
    ensures Lower(menu[i].text) in StateUrls(menu)
    ensures StateUrls(menu)[Lower(menu[i].text)] == HOME_URL + menu[i].href
  {
    if i < |menu| - 1 {
      var init := menu[..|menu| - 1];
      StateUrlsLastWins(init, i);
    }
  }

  /** Any casing of an entry's text finds that entry's state. */
  lemma AnyCasingFound(menu: seq<StateEntry>, i: nat, typed: string)
    requires i < |menu| && Lower(typed) == Lower(menu[i].text)
    ensures Lower(typed) in StateUrls(menu)
  {
    StateUrlsKeys(menu);
  }

  /** The state directory a session builds from the home page, if it has the drop-down. */
  function Directory(web: Web): Option<map<string, string>>
  {
    match web.menuOf(web.net(HOME_URL))
    case None => None
    case Some(menu) => Some(StateUrls(menu))
  }

  /** `build_state_url_dict()`: a live GET of the home page, then one insertion per entry. */
  method BuildStateUrlDict(web: Web) returns (links: Option<map<string, string>>)
    ensures links == Directory(web)
  {
    var response := web.net(HOME_URL);
    var stateList := web.menuOf(response);
    if stateList.None? {
      return None;
    }
    var menu := stateList.value;
    var dict := map[];
    for n := 0 to |menu|
      invariant dict == StateUrls(menu[..n])
    {
      var key := Lower(menu[n].text);
      var value := menu[n].href;
      dict := dict[key := HOME_URL + value];
      assert menu[..n + 1][..n] == menu[..n];
    }
    assert menu[..|menu|] == menu;
    links := Some(dict);
  }

  /** The absolute detail-page URL of each listed heading, in order. */
  function SiteUrls(hrefs: seq<string>): (urls: seq<string>)
    ensures |urls| == |hrefs|
  {
    seq(|hrefs|, i requires 0 <= i < |hrefs| => HOME_URL + hrefs[i])
  }

  /** A state's site list when every page is read from the network. */
  function SitesFor(web: Web, stateUrl: string): Option<seq<NationalSite>>
  {
    match web.listingOf(web.net(stateUrl))
    case None => None
    case Some(hrefs) =>
      Some(seq(|hrefs|, i requires 0 <= i < |hrefs| => SiteInstance(web.pageOf(web.net(SiteUrls(hrefs)[i])))))
  }

  /** Records read through a cache that holds the network's bodies are the records read from the network. */
  lemma SitesFromCoherentCache(web: Web, stateUrl: string, hrefs: seq<string>, list: seq<NationalSite>, entries: map<string, string>)
    requires web.listingOf(web.net(stateUrl)) == Some(hrefs)
    requires |list| == |hrefs|
    requires forall i :: 0 <= i < |hrefs| ==>
      SiteUrls(hrefs)[i] in entries && list[i] == SiteInstance(web.pageOf(entries[SiteUrls(hrefs)[i]]))
    requires forall k :: k in entries ==> entries[k] == web.net(k)
    ensures SitesFor(web, stateUrl) == Some(list)
  {
    var spec := SitesFor(web, stateUrl).value;
    assert forall i :: 0 <= i < |list| ==> list[i] == spec[i];
    assert list == spec;
  }

  /** `get_site_instance(site_url)`: a cache-through fetch, then the parsed record. */
  method GetSiteInstance(siteUrl: string, pages: Cache, web: Web) returns (site: NationalSite)
    requires pages.Valid()
    modifies pages
    ensures pages.Valid()
    ensures siteUrl in pages.entries && site == SiteInstance(web.pageOf(pages.entries[siteUrl]))
    ensures pages.entries.Keys == old(pages.entries).Keys + {siteUrl}
    ensures Extends(old(pages.entries), pages.entries)
    ensures old(pages.Agrees(web.net)) ==> pages.Agrees(web.net) && site == SiteInstance(web.pageOf(web.net(siteUrl)))
  {
    var response := pages.GetUrl(siteUrl, web.net);
    site := SiteInstance(web.pageOf(response));
  }

  /**
   * `get_sites_for_state(state_url)`: a live GET of the state page, then
   * one record per heading, in heading order, each through the page cache.
   */
  method GetSitesForState(stateUrl: string, pages: Cache, web: Web) returns (sites: Option<seq<NationalSite>>)
    requires pages.Valid()
    modifies pages
    ensures pages.Valid()
    ensures sites.None? <==> web.listingOf(web.net(stateUrl)).None?
    ensures sites.None? ==> pages.entries == old(pages.entries)
    ensures sites.Some? ==>
      var urls := SiteUrls(web.listingOf(web.net(stateUrl)).value);
      |sites.value| == |urls| &&
      forall i :: 0 <= i < |urls| ==>
        urls[i] in pages.entries && sites.value[i] == SiteInstance(web.pageOf(pages.entries[urls[i]]))
    ensures Extends(old(pages.entries), pages.entries)
    ensures old(pages.Agrees(web.net)) ==> pages.Agrees(web.net) && sites == SitesFor(web, stateUrl)
  {
    var response := web.net(stateUrl);
    var headings := web.listingOf(response);
    if headings.None? {
      return None;
    }
    var hrefs := headings.value;
    ghost var urls := SiteUrls(hrefs);
    ghost var coherent := pages.Agrees(web.net);
    var list := [];
    for n := 0 to |hrefs|
      invariant pages.Valid()
      invariant |list| == n
      invariant forall i :: 0 <= i < n ==>
        urls[i] in pages.entries && list[i] == SiteInstance(web.pageOf(pages.entries[urls[i]]))
      invariant Extends(old(pages.entries), pages.entries)
      invariant coherent ==> pages.Agrees(web.net)
    {
      var siteUrl := HOME_URL + hrefs[n];
      ghost var before := pages.entries;
      var site := GetSiteInstance(siteUrl, pages, web);
      ExtendsTransitive(old(pages.entries), before, pages.entries);
      forall i | 0 <= i < n
        ensures urls[i] in pages.entries && list[i] == SiteInstance(web.pageOf(pages.entries[urls[i]]))
      {
        assert urls[i] in before;
      }
      list := list + [site];
    }
    sites := Some(list);
    if coherent {
      SitesFromCoherentCache(web, stateUrl, hrefs, list, pages.entries);
    }
  }

  /** The radius-search parameters `get_nearby_places` builds for a zipcode. */
  function NearbyParams(apiKey: string, zipcode: string): (p: Params)
    ensures p.key == apiKey && p.origin == zipcode
    ensures p.radius == "10" && p.maxMatches == "10"
    ensures p.ambiguities == "ignore" && p.outFormat == "json"
  {
    Params(apiKey, "10", zipcode, "10", "ignore", "json")
  }

  /** The body the API cache should hold for a zipcode: MapQuest's answer to its search. */
  function ApiSource(web: Web): string -> string
  {
    zipcode => web.mapquest(NearbyParams(web.apiKey, zipcode))
  }

  /** A site's nearby results when MapQuest is asked directly. */
  function NearbyFor(web: Web, site: NationalSite): Option<seq<SearchResult>>
  {
    web.resultsOf(web.mapquest(NearbyParams(web.apiKey, site.zipcode)))
  }

  /**
   * `get_nearby_places(site_object)`: the radius search for the site's
   * zipcode, through the API cache keyed by that zipcode, then decoded.
   */
  method GetNearbyPlaces(site: NationalSite, api: Cache, web: Web) returns (results: Option<seq<SearchResult>>)
    requires api.Valid()
    modifies api
    ensures api.Valid()
    ensures site.zipcode in api.entries && results == web.resultsOf(api.entries[site.zipcode])
    ensures forall k :: k in api.entries <==> k in old(api.entries) || k == site.zipcode
    ensures forall k :: k in old(api.entries) ==> api.entries[k] == old(api.entries)[k]
    ensures old(api.Agrees(ApiSource(web))) ==> api.Agrees(ApiSource(web)) && results == NearbyFor(web, site)
  {
    var params := NearbyParams(web.apiKey, site.zipcode);
    var response := api.GetApi(site.zipcode, params, web.mapquest);
    results := web.resultsOf(response);
  }
}
