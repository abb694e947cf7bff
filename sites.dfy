/**
 * Site records: the `NationalSite` value, its `info()` line, and
 * `get_site_instance`'s per-field defaulting once the page is parsed.
 */
module Sites {
  import opened Wrappers

  /** A national site; every field is a string, possibly empty. */
  datatype NationalSite = NationalSite(
    category: string,
    name: string,
    address: string,
    zipcode: string,
    phone: string)

  /**
   * What the six `soup.find(...).text.strip()` lookups of a site page
   * produced: `None` where the lookup raised (the element is missing).
   */
  datatype SitePage = SitePage(
    category: Option<string>,
    name: Option<string>,
    city: Option<string>,
    state: Option<string>,
    zipcode: Option<string>,
    phone: Option<string>)

  /** The `except` fallback of one field: a missing element reads as `''`. */
  function Field(lookup: Option<string>): (r: string)
    ensures lookup.None? ==> r == ""
    ensures lookup.Some? ==> r == lookup.value
  {
    lookup.GetOr("")
  }

  /** `f'{city}, {state}'`: the city, then ", ", then the state. */
  function Address(city: string, state: string): (r: string)
    ensures |r| == |city| + 2 + |state|
    ensures r[..|city|] == city
    ensures r[|city|..|city| + 2] == ", "
    ensures r[|city| + 2..] == state
  {
    city + ", " + state
  }

  /** The address is determined by its halves, and the halves by the address and the city's length. */
  lemma AddressSplit(c1: string, s1: string, c2: string, s2: string)
    requires |c1| == |c2|
    ensures Address(c1, s1) == Address(c2, s2) <==> c1 == c2 && s1 == s2
  {
  }

  /** The worked cases: "Houghton, MI", ", MI" and, with both halves missing, ", ". */
  lemma AddressExamples()
    ensures Address("Houghton", "MI") == "Houghton, MI"
    ensures Address("", "MI") == ", MI"
    ensures Address("", "") == ", "
  {
  }

  /** `NationalSite.info()`: `name (category): address zipcode`, each field at its offset. */
  function Info(site: NationalSite): (r: string)
    ensures var n, c, a := |site.name|, |site.category|, |site.address|;
      |r| == n + c + a + |site.zipcode| + 6 &&
      r[..n] == site.name &&
      r[n..n + 2] == " (" &&
      r[n + 2..n + 2 + c] == site.category &&
      r[n + 2 + c..n + 5 + c] == "): " &&
      r[n + 5 + c..n + 5 + c + a] == site.address &&
      r[n + 5 + c + a] == ' ' &&
      r[n + 6 + c + a..] == site.zipcode
  {
    site.name + " (" + site.category + "): " + site.address + " " + site.zipcode
  }

  /**
   * `get_site_instance` after parsing: each field is its lookup's text,
   * or `''` when the lookup failed; the address joins city and state.
   */
  function SiteInstance(page: SitePage): (site: NationalSite)
    ensures site.category == (if page.category.Some? then page.category.value else "")
    ensures site.name == (if page.name.Some? then page.name.value else "")
    ensures site.zipcode == (if page.zipcode.Some? then page.zipcode.value else "")
    ensures site.phone == (if page.phone.Some? then page.phone.value else "")
    ensures site.address == Address(Field(page.city), Field(page.state))
  {
    var city := Field(page.city);
    var state := Field(page.state);
    NationalSite(
      category := Field(page.category),
      name := Field(page.name),
      address := Address(city, state),
      zipcode := Field(page.zipcode),
      phone := Field(page.phone))
  }

  /**
   * Field independence: each field of the record depends on its own
   * lookup only (the address on the city and state lookups), so a missing
   * element never changes another field.
   */
  lemma FieldIndependence(p: SitePage, q: SitePage)
    ensures p.category == q.category ==> SiteInstance(p).category == SiteInstance(q).category
    ensures p.name == q.name ==> SiteInstance(p).name == SiteInstance(q).name
    ensures p.city == q.city && p.state == q.state ==> SiteInstance(p).address == SiteInstance(q).address
    ensures p.zipcode == q.zipcode ==> SiteInstance(p).zipcode == SiteInstance(q).zipcode
    ensures p.phone == q.phone ==> SiteInstance(p).phone == SiteInstance(q).phone
  {
  }

  /** A page whose postal-code element is missing: `zipcode == ''`, every other field as parsed. */
  lemma MissingZipcode(p: SitePage)
    ensures SiteInstance(p.(zipcode := None)).zipcode == ""
    ensures var s, t := SiteInstance(p), SiteInstance(p.(zipcode := None));
      t == s.(zipcode := "")
  {
  }
}
