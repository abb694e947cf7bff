/**
 * What the console shows, without the printing: the numbered site list of
 * `print_sites` and the normalised nearby places of `print_nearby`.
 */
module Display {
  import opened Sites

  /** The four fields `print_nearby` reads from one MapQuest search result. */
  datatype SearchResult = SearchResult(name: string, address: string, category: string, city: string)

  /** The values one `- {name} ({category}): {address}, {city}` line is printed with. */
  datatype Place = Place(name: string, category: string, address: string, city: string)

  /**
   * One iteration of `print_nearby`: a result with name, category and
   * address all present is shown as it is (even with an empty city);
   * otherwise each empty field, the city included, becomes its sentinel.
   */
  function Normalize(r: SearchResult): (p: Place)
    ensures r.name == "" ==> p.name == "no name"
    ensures r.name != "" ==> p.name == r.name
    ensures r.category == "" ==> p.category == "no category"
    ensures r.category != "" ==> p.category == r.category
    ensures r.address == "" ==> p.address == "no address"
    ensures r.address != "" ==> p.address == r.address
    ensures r.city == "" && (r.name == "" || r.category == "" || r.address == "") ==> p.city == "no city"
    ensures r.city != "" || (r.name != "" && r.category != "" && r.address != "") ==> p.city == r.city
  {
    if |r.name| > 0 && |r.category| > 0 && |r.address| > 0 then
      Place(r.name, r.category, r.address, r.city)
    else
      Place(
        if |r.name| == 0 then "no name" else r.name,
        if |r.category| == 0 then "no category" else r.category,
        if |r.address| == 0 then "no address" else r.address,
        if |r.city| == 0 then "no city" else r.city)
  }

  /** Every field of the shown place is non-empty, except the city of a complete result. */
  lemma NormalizeNonEmpty(r: SearchResult)
    ensures var p := Normalize(r);
      p.name != "" && p.category != "" && p.address != "" &&
      (p.city == "" <==> r.city == "" && r.name != "" && r.category != "" && r.address != "")
  {
  }

  /** `print_nearby(api_dict)`: one place per search result, in order. */
  method PrintNearby(results: seq<SearchResult>) returns (places: seq<Place>)
    ensures |places| == |results|
    ensures forall i :: 0 <= i < |results| ==> places[i] == Normalize(results[i])
  {
    places := [];
    for k := 0 to |results|
      invariant |places| == k
      invariant forall i :: 0 <= i < k ==> places[i] == Normalize(results[i])
    {
      var result := results[k];
      var name, address, category, city := result.name, result.address, result.category, result.city;
      if |name| > 0 && |category| > 0 && |address| > 0 {
        places := places + [Place(name, category, address, city)];
      } else {
        if |name| == 0 {
          name := "no name";
        }
        if |category| == 0 {
          category := "no category";
        }
        if |address| == 0 {
          address := "no address";
        }
        if |city| == 0 {
          city := "no city";
        }
        places := places + [Place(name, category, address, city)];
      }
    }
  }

  /** One line of the site list: `[{label}] {info}`. */
  datatype Listed = Listed(number: nat, info: string)

  /**
   * The lines `print_sites` shows. `site_list.index(site)` compares with
   * `==`, which for `NationalSite` (no `__eq__`) is object identity, and
   * every record in the list is a distinct object, so the index found is
   * the record's own position: the lines are numbered 1, 2, ... in order.
   */
  function Listing(sites: seq<NationalSite>): (lines: seq<Listed>)
    ensures |lines| == |sites|
    ensures forall i :: 0 <= i < |lines| ==> lines[i].info == Info(sites[i])
    ensures forall i, j :: 0 <= i < j < |lines| ==> lines[i].number < lines[j].number
    ensures forall i :: 0 <= i < |lines| ==> 1 <= lines[i].number <= |sites|
  {
    seq(|sites|, i requires 0 <= i < |sites| => Listed(i + 1, Info(sites[i])))
  }

  /** `print_sites(site_list)`: one numbered `info()` line per record, in list order. */
  method PrintSites(sites: seq<NationalSite>) returns (lines: seq<Listed>)
    ensures lines == Listing(sites)
  {
    lines := [];
    for k := 0 to |sites|
      invariant lines == Listing(sites)[..k]
    {
      lines := lines + [Listed(k + 1, Info(sites[k]))];
    }
  }
}
