/**
 * The cache-through fetch layer: `get_url` keys the page cache by URL,
 * `get_api` keys the MapQuest cache by zipcode alone. The network is an
 * oracle handed to each call: `net(url)` is the body `requests.get(url).text`
 * returns, `api(params)` the body of the radius search for `params`.
 */
module Fetch {

  /** The query parameters of one MapQuest radius search. */
  datatype Params = Params(
    key: string,
    radius: string,
    origin: string,
    maxMatches: string,
    ambiguities: string,
    outFormat: string)

  /** Every entry of `m1` is in `m2`, unchanged: no key was dropped or overwritten. */
  ghost predicate Extends(m1: map<string, string>, m2: map<string, string>) {
    m1.Keys <= m2.Keys && forall k :: k in m1 ==> m2[k] == m1[k]
  }

  lemma ExtendsTransitive(m1: map<string, string>, m2: map<string, string>, m3: map<string, string>)
    requires Extends(m1, m2) && Extends(m2, m3)
    ensures Extends(m1, m3)
  {
  }

  /** A dictionary of response bodies, updated in place by every miss. */
  class Cache {
    var entries: map<string, string>
    /** The keys fetched from the network, in the order of the fetches. */
    ghost var Log: seq<string>

    /**
     * Every cached key was fetched exactly once: the log has no repeats,
     * and its keys are exactly the cached keys (the cache starts empty).
     */
    ghost predicate Valid()
      reads this
    {
      (forall i, j :: 0 <= i < j < |Log| ==> Log[i] != Log[j]) &&
      (forall k :: k in entries <==> k in Log)
    }

    /** Every cached body is the one `source` gives for its key. */
    ghost predicate Agrees(source: string -> string)
      reads this
    {
      forall k :: k in entries ==> entries[k] == source(k)
    }

    /** A session starts with an empty cache (no snapshot is ever loaded). */
    constructor ()
      ensures Valid()
      ensures entries == map[] && Log == []
    {
      entries := map[];
      Log := [];
    }

    /** `get_url(url, cache_dic)`. */
    method GetUrl(url: string, net: string -> string) returns (body: string)
      requires Valid()
      modifies this
      ensures Valid()
      ensures url in entries && body == entries[url]
      ensures url in old(entries) ==> entries == old(entries) && Log == old(Log)
      ensures url !in old(entries) ==>
        entries == old(entries)[url := net(url)] && Log == old(Log) + [url]
      ensures forall source :: old(Agrees(source)) && source(url) == net(url) ==> Agrees(source)
    {
      if url !in entries {
        entries := entries[url := net(url)];
        Log := Log + [url];
      }
      body := entries[url];
    }

    /**
     * `get_api(zipcode, cache_dic, params)`: the request is made with
     * `params`, but the body is filed under `zipcode` only.
     */
    method GetApi(zipcode: string, params: Params, api: Params -> string) returns (body: string)
      requires Valid()
      modifies this
      ensures Valid()
      ensures zipcode in entries && body == entries[zipcode]
      ensures zipcode in old(entries) ==> entries == old(entries) && Log == old(Log)
      ensures zipcode !in old(entries) ==>
        entries == old(entries)[zipcode := api(params)] && Log == old(Log) + [zipcode]
      ensures forall source :: old(Agrees(source)) && source(zipcode) == api(params) ==> Agrees(source)
    {
      if zipcode !in entries {
        entries := entries[zipcode := api(params)];
        Log := Log + [zipcode];
      }
      body := entries[zipcode];
    }
  }

  /**
   * Two `get_url` calls for one URL: the second is a hit, fetches nothing
   * and returns the first body.
   */
  method GetUrlTwice(cache: Cache, url: string, net: string -> string)
    returns (first: string, second: string)
    requires cache.Valid()
    modifies cache
    ensures cache.Valid()
    ensures second == first
    ensures url in old(cache.entries) ==>
      first == old(cache.entries)[url] && cache.entries == old(cache.entries) && cache.Log == old(cache.Log)
    ensures url !in old(cache.entries) ==>
      first == net(url) && cache.entries == old(cache.entries)[url := net(url)] && cache.Log == old(cache.Log) + [url]
  {
    first := cache.GetUrl(url, net);
    second := cache.GetUrl(url, net);
  }

  /**
   * Two `get_api` calls for one zipcode with different parameters: the
   * second returns the body fetched with the first call's parameters.
   */
  method GetApiTwice(cache: Cache, zipcode: string, p1: Params, p2: Params, api: Params -> string)
    returns (first: string, second: string)
    requires cache.Valid()
    modifies cache
    ensures cache.Valid()
    ensures second == first
    ensures zipcode !in old(cache.entries) ==>
      first == api(p1) && cache.entries == old(cache.entries)[zipcode := api(p1)] && cache.Log == old(cache.Log) + [zipcode]
    ensures zipcode in old(cache.entries) ==>
      first == old(cache.entries)[zipcode] && cache.entries == old(cache.entries) && cache.Log == old(cache.Log)
  {
    first := cache.GetApi(zipcode, p1, api);
    second := cache.GetApi(zipcode, p2, api);
  }
}
