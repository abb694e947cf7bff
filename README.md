# National sites browser: a verified model

`proj2_nps.py` scrapes nps.gov for national sites by state and asks the
MapQuest radius search for places near a chosen site, behind a two-level
text menu. This project models its deterministic core in Dafny:

- the cache-through fetches `get_url` (page cache keyed by URL) and
  `get_api` (MapQuest cache keyed by zipcode only), as a `Cache` class whose
  dictionary is updated in place (`fetch.dfy`);
- the `NationalSite` record, its `info()` line and `get_site_instance`'s
  per-field fallback to `''` (`sites.dfy`);
- `print_sites` and `print_nearby` as the values they print: numbered
  lines and normalised places (`display.dfy`);
- `build_state_url_dict`, `get_site_instance`, `get_sites_for_state` and
  `get_nearby_places` as methods over the caches (`scraper.dfy`);
- `user_interface` as two nested loops over the typed lines, and as a
  pure state machine (`Step`, `Run`, `Session`) that reads every page from
  the network (`menu.dfy`);
- `str.lower`, `str.isnumeric` and `int` on ASCII text (`text.dfy`).

The network, the HTML parser and the JSON decoder are outside the model.
They are the fields of a `Web` value: `net(url)` is the body of a GET,
`mapquest(params)` the body of a radius search. `menuOf`, `listingOf`,
`pageOf` and `resultsOf` give what BeautifulSoup or `json.loads` extract
from a body. `None` stands for a missing container or key, which makes the
source raise. `apiKey` stands for `secrets.API_KEY`. The console is a
sequence of input lines. What is printed is a sequence of `Event`s. The
session ends with `Quit` (`quit()`), `Crash` (an uncaught exception) or
`InputExhausted`. `InputExhausted` is kept apart from `Crash` although in
the program it is one: at the end of input, `input()` raises an `EOFError`
that nothing catches.

The main result is `Menu.UserInterface`. It runs the nested loops with
real caches, and its output equals `Menu.Session`, which reads every page
straight from the network. So the caches never change the modelled events.
(The "Using cache" and "Fetching" lines that `get_url` and `get_api` print
do depend on the caches; they are not modelled, see "## Left out".)
This rests on `Cache.Agrees`: every cached body is the body the network
gives for its key. The API cache holds the search for the key's zipcode.
Both caches start empty, each miss keeps `Agrees` true, and each hit then
returns the network's body. `Cache.Valid` states that every key was fetched
exactly once: the ghost `Log` of fetched keys has no repeats and holds
exactly the cached keys.

Three points where the code behaves differently from what a reader might
expect. The model follows the code:

- One might expect `print_nearby` to default each of the four fields on its
  own. In the code (proj2_nps.py:317-327) the city becomes `'no city'` only
  when name, category or address is empty too. With all three present, an
  empty city is printed as it is. See `Display.Normalize` and
  `Display.NormalizeNonEmpty`.
- `print_sites` numbers each record with `site_list.index(site) + 1`
  (proj2_nps.py:294-295). `NationalSite` defines no `__eq__`, so `index`
  compares by identity. Every record in the list is a distinct object made
  by `get_site_instance`, so the number is always the position plus one,
  even when two records hold equal fields. `Display.Listing` numbers by
  position.
- The menu guard at proj2_nps.py:376 is modelled as written. See
  "## Findings".

## Model

| member | source | states |
|---|---|---|
| Fetch.Cache.constructor | proj2_nps.py:15-16 | a session's cache starts as an empty dictionary with nothing fetched (no snapshot is ever loaded) |
| Fetch.Cache.GetUrl | proj2_nps.py:80-85 | afterwards `url` is cached and the body returned is the cached one; a hit changes neither the dictionary nor the fetch log; a miss adds exactly `url -> net(url)` and logs one fetch of `url`; every key stays fetched at most once |
| Fetch.Cache.GetApi | proj2_nps.py:107-113 | the same cache-through contract keyed by `zipcode` alone: a miss files the body of the search made with `params` under the zipcode, a hit ignores `params` |
| Fetch.GetUrlTwice | proj2_nps.py:80-85 | a second `get_url` for the same URL fetches nothing and returns the same body as the first; the dictionary ends as one call leaves it |
| Fetch.GetApiTwice | proj2_nps.py:107-113 | two `get_api` calls for one zipcode with different params both return the body fetched with the first call's params, which is what the dictionary then holds |
| Sites.Address | proj2_nps.py:213 | the address is the city, then ", ", then the state, whichever halves are empty |
| Sites.AddressSplit | proj2_nps.py:213 | for cities of equal length, two addresses are equal exactly when their cities and states are |
| Sites.AddressExamples | proj2_nps.py:213 | "Houghton" and "MI" give "Houghton, MI"; an empty city gives ", MI"; both empty give ", " |
| Sites.Info | proj2_nps.py:144-145 | `info()` is the name, " (", the category, "): ", the address, a space and the zipcode, each at its computed offset |
| Sites.SiteInstance | proj2_nps.py:192-227 | each of category, name, zipcode and phone is its lookup's text, or `''` when the element is missing; the address joins the city and state fields, each defaulted the same way |
| Sites.FieldIndependence | proj2_nps.py:192-227 | each record field depends only on its own lookup (the address on the city and state lookups), so one missing element never changes another field |
| Sites.MissingZipcode | proj2_nps.py:215-219 | a page without the postal-code element gives `zipcode == ''` and every other field as for the full page |
| Display.Normalize | proj2_nps.py:317-327 | name, category and address become "no name", "no category", "no address" exactly when empty, otherwise unchanged; the city becomes "no city" exactly when it is empty and one of the other three is empty |
| Display.NormalizeNonEmpty | proj2_nps.py:317-327 | a shown place never has an empty name, category or address; its city is empty exactly when the result's city is empty and the other three are all present |
| Display.PrintNearby | proj2_nps.py:312-328 | one place per search result, in order, each normalised as above |
| Display.Listing | proj2_nps.py:293-295 | one line per record, in list order, showing that record's `info()`; the numbers run from 1 to the number of records and increase down the list (identity comparison makes `index` return the position) |
| Display.PrintSites | proj2_nps.py:293-295 | the loop's numbered lines are exactly `Listing` of the site list |
| Text.Lower | proj2_nps.py:168 | `lower()` keeps the length, lower-cases each ASCII capital and leaves every other character alone, so no capital remains |
| Text.IsNumeric | proj2_nps.py:375 | a numeric choice is never "exit" or "back", so the order of the three tests at lines 369-375 does not matter for it |
| Text.ParseNat | proj2_nps.py:376 | `int` of one digit is that digit's value, and a leading zero does not change the value |
| Text.ParseDecimal | proj2_nps.py:376 | `int` of the decimal text of `n` is `n` |
| Scraper.StateUrlsKeys | proj2_nps.py:165-172 | the directory's keys are exactly the lower-cased texts of the drop-down entries |
| Scraper.StateUrlsLastWins | proj2_nps.py:167-170 | a key maps to "https://www.nps.gov" plus the href of the last entry with that lower-cased text; later entries overwrite earlier ones |
| Scraper.AnyCasingFound | proj2_nps.py:356 | a typed state name in any letter case finds the entry whose text it matches |
| Scraper.BuildStateUrlDict | proj2_nps.py:161-172 | no drop-down gives a crash (`None`); otherwise the loop's dictionary is the one the entries give when inserted in order |
| Scraper.GetSiteInstance | proj2_nps.py:188-227 | the record is built from the cached body of the site URL; only that URL can be added to the page cache and no entry is overwritten; with a coherent cache the record is the one built from the network's body |
| Scraper.SitesFromCoherentCache | proj2_nps.py:248-250 | records read through a cache that holds the network's bodies are the records read from the network |
| Scraper.GetSitesForState | proj2_nps.py:242-252 | no list container gives `None`; otherwise record `i` is built from the cached page of "https://www.nps.gov" + href `i`, one record per heading in heading order, no cached entry is overwritten, and with a coherent cache the list is `SitesFor` |
| Scraper.NearbyParams | proj2_nps.py:268-273 | the search is for the site's zipcode, with radius 10, at most 10 matches, ambiguities ignored and JSON output |
| Scraper.GetNearbyPlaces | proj2_nps.py:268-276 | the results decode the API-cache body filed under the site's zipcode; only that zipcode can be added; with a coherent cache they are the decoded answer to the site's search |
| Menu.SiteChoice | proj2_nps.py:369-385 | "exit" and "back" are recognised exactly; a picked index is always inside the list |
| Menu.PickInRange | proj2_nps.py:375-380 | a numeric choice from 1 to the number of sites picks that site, counting from 1 |
| Menu.NumberPicksSite | proj2_nps.py:375-380 | line `i` of the site list is numbered `i + 1` and shows record `i`'s `info()`; typing that number picks record `i` |
| Menu.ZeroPicksLast | proj2_nps.py:376-380 | "0" passes the guard and picks the last site |
| Menu.PastEndCrashes | proj2_nps.py:376-378 | the choice one past the last site passes the guard and crashes on `s_list[len(s_list)]` |
| Menu.EmptyListCrashes | proj2_nps.py:376-378 | with no sites listed, "0" and "1" both pass the guard and crash |
| Menu.SiteChoiceFixed | proj2_nps.py:376 | with the guard `1 <= int(choice) <= len(s_list)`, a choice picks exactly when it is in that range, it picks site `choice - 1`, and it never crashes |
| Menu.GuardDiffers | proj2_nps.py:376 | the written and the corrected guard disagree exactly on the numeric choices 0 and one past the end |
| Menu.StepMoves | proj2_nps.py:350-385 | in one turn only "exit" quits, at either level; the site menu stays or, only on "back", returns to the state menu; the state menu opens a site menu only for a known state, holding that state's records, and otherwise shows the state error |
| Menu.QuitNeedsExit | proj2_nps.py:353-354 | a session ends with `quit()` only if "exit" was typed |
| Menu.SiteMenu | proj2_nps.py:366-385 | the inner loop shows exactly what the state machine shows from the site menu, up to "back" or the end of the session; it overwrites no API-cache entry and adds only zipcodes of listed sites |
| Menu.UserInterface | proj2_nps.py:330-385 | with both caches starting empty, what the nested loops show and how the session ends equal the cache-free `Session` |

## Findings

| source | as written | input that shows it | evidently intended | confidence | as-written member | corrected member |
|---|---|---|---|---|---|---|
| proj2_nps.py:376 | `if(int(choice) <= (len(s_list)+1))` | two sites listed, choice "3": the guard admits it and `s_list[2]` raises IndexError, ending the session | `1 <= int(choice) <= len(s_list)`, with "3" reported as invalid input | high; not executed | Menu.PastEndCrashes | Menu.SiteChoiceFixed |
| proj2_nps.py:376 | `if(int(choice) <= (len(s_list)+1))` | two sites listed, choice "0": `s_list[-1]` shows the places near the second site | "0" reported as invalid input | medium; not executed | Menu.ZeroPicksLast | Menu.SiteChoiceFixed |

`Menu.GuardDiffers` shows that the two guards disagree only on these
choices. `Menu.UserInterface` and `Menu.Step` keep the guard as written,
because they model the program as it runs.

## Left out

- Persistence: `save_cache` and `load_cache` (proj2_nps.py:20-59) are file and JSON I/O. They never take effect, because `CACHE_PATH` is commented out (proj2_nps.py:12). The bare `except` then binds empty dictionaries to locals that shadow the module-level caches. So both caches start empty, as `Cache`'s constructor does, and no save/load round trip is claimed.
- HTML parsing and JSON decoding: BeautifulSoup's `find`, `find_all`, `.text.strip()` and `json.loads` are the oracle fields of `Web`. Whitespace stripping, markup and the JSON format are not modelled.
- Network: `requests.get` is the function `net` (or `mapquest`), so the web is assumed to give the same body for the same URL within a session. Connection errors, HTTP statuses and pages that change between requests are not modelled.
- Console: `print`, `input` and `quit` become input lines, `Event` values and `End` values. The exact text of the messages and separators is not modelled, except the `info()` line.
- `print_nearby` stopping partway: if a later result lacks a key, the source has already printed the earlier lines before it raises. The model folds every decoding or key failure into `resultsOf` returning `None`, so it shows no places before the crash.
- `str.lower`, `str.isnumeric` and `int`: only ASCII letters and digits are modelled. Python's Unicode case mapping and non-ASCII numerals are not.
- Text.ParseNat: unbounded. CPython 3.11 and later (and the security releases of 3.7-3.10) make `int()` raise `ValueError` on a decimal string of more than 4300 digits. So a numeric site choice that long ends the session with an uncaught exception at proj2_nps.py:376, while the model reads it as an out-of-range number and reports invalid input. That limit depends on the interpreter version and is not modelled.
- `NationalSite`'s default `None` arguments (proj2_nps.py:137) are never used by the source and are not modelled; every field is a string.
- Python object identity: records are values. `print_sites` relies on identity only through `index`, which is modelled by its outcome, the position (see `Display.Listing`).
- Fetch.Cache.GetUrl: the "Using cache" / "Fetching" line it prints (proj2_nps.py:81, 83) depends on the cache and is not modelled; only the returned body and the new dictionary are.
- Fetch.Cache.GetApi: likewise, its "Using cache" / "Fetching" line (proj2_nps.py:108, 110) is not modelled.
- Scraper.GetSitesForState: does not state that only the listed site URLs are added to the page cache, because that set equality made the loop's proof too costly; `Scraper.GetSiteInstance` and `Fetch.Cache.GetUrl` state it for each single fetch.
