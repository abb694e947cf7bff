/**
 * `user_interface`: a two-level menu (choose a state, then a site) driven
 * by typed lines. The console is a finite sequence of input lines; what
 * is printed is a sequence of events; `quit()` and uncaught exceptions
 * end the session.
 */
module Menu {
  import opened Wrappers
  import opened Text
  import opened Fetch
  import opened Sites
  import opened Display
  import opened Scraper

  /** What one site-menu line selects. `IndexError` is the crash of `s_list[int(choice) - 1]`. */
  datatype Choice = Exit | Back | Pick(index: nat) | IndexError | Invalid

  /**
   * The site-menu branches of `user_interface` as written: a numeric
   * choice `c` passes the guard when `c <= len(s_list) + 1`, and then
   * `s_list[c - 1]` is read with Python's indexing, where `-1` is the
   * last element.
   */
  function SiteChoice(choice: string, count: nat): (r: Choice)
    ensures r.Pick? ==> r.index < count
    ensures r == Exit <==> choice == "exit"
    ensures r == Back <==> choice == "back"
  {
    if choice == "exit" then Exit
    else if choice == "back" then Back
    else if IsNumeric(choice) then
      var c := ParseNat(choice);
      if c <= count + 1 then
        if c == 0 then (if count > 0 then Pick(count - 1) else IndexError)
        else if c - 1 < count then Pick(c - 1)
        else IndexError
      else Invalid
    else Invalid
  }

  /** A choice from 1 to the number of sites picks that site, counting from 1. */
  lemma PickInRange(choice: string, count: nat)
    requires IsNumeric(choice) && 1 <= ParseNat(choice) <= count
    ensures SiteChoice(choice, count) == Pick(ParseNat(choice) - 1)
  {
  }

  /** "0" passes the guard and reads `s_list[-1]`: the last site. */
  lemma ZeroPicksLast(count: nat)
    requires count > 0
    ensures SiteChoice("0", count) == Pick(count - 1)
  {
  }

  /** One past the last site passes the guard and then crashes on the index. */
  lemma PastEndCrashes(count: nat)
    ensures SiteChoice(DecimalString(count + 1), count) == IndexError
  {
    var s := DecimalString(count + 1);
    ParseDecimal(count + 1);
    assert s != "exit" && s != "back" by {
      assert IsDigit(s[0]);
    }
  }

  /** With no sites listed, "0" and "1" both pass the guard and crash. */
  lemma EmptyListCrashes()
    ensures SiteChoice("0", 0) == IndexError
    ensures SiteChoice("1", 0) == IndexError
  {
  }

  /** Typing the number a listed line shows picks that line's site. */
  lemma NumberPicksSite(sites: seq<NationalSite>, i: nat)
    requires i < |sites|
    ensures Listing(sites)[i].number == i + 1
    ensures Listing(sites)[i].info == Info(sites[i])
    ensures SiteChoice(DecimalString(Listing(sites)[i].number), |sites|) == Pick(i)
  {
    ParseDecimal(i + 1);
    var s := DecimalString(i + 1);
    assert IsDigit(s[0]);
  }

  /** The guard as evidently intended: `1 <= int(choice) <= len(s_list)`. */
  function SiteChoiceFixed(choice: string, count: nat): (r: Choice)
    ensures r != IndexError
    ensures r.Pick? <==> IsNumeric(choice) && 1 <= ParseNat(choice) <= count
    ensures r.Pick? ==> r.index == ParseNat(choice) - 1 && r.index < count
  {
    if choice == "exit" then Exit
    else if choice == "back" then Back
    else if IsNumeric(choice) && 1 <= ParseNat(choice) <= count then Pick(ParseNat(choice) - 1)
    else Invalid
  }

  /** The guard as written and as intended disagree exactly on the choices 0 and one past the end. */
  lemma GuardDiffers(choice: string, count: nat)
    ensures SiteChoice(choice, count) != SiteChoiceFixed(choice, count) <==>
      IsNumeric(choice) && (ParseNat(choice) == 0 || ParseNat(choice) == count + 1)
  {
  }

  /** What the session shows: the messages and lists `user_interface` prints. */
  datatype Event =
    | StateError                                   // "[Error] Enter proper state name"
    | SiteList(state: string, lines: seq<Listed>)  // the header and `print_sites`
    | PlacesNear(name: string)                     // "Places near {name}"
    | Nearby(places: seq<Place>)                   // `print_nearby`
    | InvalidInput                                 // "[Error] Invalid input"

  /** How a session ends: `quit()`, an uncaught exception, or no more input lines. */
  datatype End = Quit | Crash | InputExhausted

  /** The two menu levels; the site level holds the list it shows. */
  datatype Menu = ChoosingState | ChoosingSite(sites: seq<NationalSite>)

  function Then(shown: seq<Event>, rest: (seq<Event>, End)): (seq<Event>, End) {
    (shown + rest.0, rest.1)
  }

  lemma ThenThen(a: seq<Event>, b: seq<Event>, rest: (seq<Event>, End))
    ensures Then(a, Then(b, rest)) == Then(a + b, rest)
  {
    assert a + (b + rest.0) == (a + b) + rest.0;
  }

  /** `print_nearby`'s places for a list of results. */
  function NearbyPlaces(results: seq<SearchResult>): seq<Place> {
    seq(|results|, i requires 0 <= i < |results| => Normalize(results[i]))
  }

  /** The zipcodes of the listed sites: the only keys a site menu can add to the API cache. */
  function Zipcodes(sites: seq<NationalSite>): (zs: set<string>)
    ensures forall i :: 0 <= i < |sites| ==> sites[i].zipcode in zs
  {
    set i | 0 <= i < |sites| :: sites[i].zipcode
  }

  /** The effect of one input line: what it shows, and the next menu or the end of the session. */
  datatype Turn = Go(shown: seq<Event>, next: Menu) | Stop(shown: seq<Event>, end: End)

  /** One turn of either loop of `user_interface`, every page read from the network. */
  function Step(web: Web, dir: map<string, string>, menu: Menu, line: string): Turn
  {
    match menu
    case ChoosingState =>
      if line == "exit" then Stop([], Quit)
      else if Lower(line) !in dir then Go([StateError], menu)
      else (
        match SitesFor(web, dir[Lower(line)])
        case None => Stop([], Crash)
        case Some(sites) => Go([SiteList(line, Listing(sites))], ChoosingSite(sites)))
    case ChoosingSite(sites) =>
      match SiteChoice(line, |sites|)
      case Exit => Stop([], Quit)
      case Back => Go([], ChoosingState)
      case Invalid => Go([InvalidInput], menu)
      case IndexError => Stop([], Crash)
      case Pick(k) => (
        match NearbyFor(web, sites[k])
        case None => Stop([PlacesNear(sites[k].name)], Crash)
        case Some(results) => Go([PlacesNear(sites[k].name), Nearby(NearbyPlaces(results))], menu))
  }

  /**
   * How one line moves the menus: only "exit" quits, at either level; the
   * site menu stays put or, on "back", returns to the state menu; the state
   * menu opens a site menu only for a known state, holding that state's
   * records, and otherwise stays with an error message.
   */
  lemma StepMoves(web: Web, dir: map<string, string>, menu: Menu, line: string)
    ensures var t := Step(web, dir, menu, line);
      ((t.Stop? && t.end == Quit) <==> line == "exit") &&
      (menu.ChoosingSite? && t.Go? ==> t.next == menu || (t.next == ChoosingState && line == "back")) &&
      (menu.ChoosingState? && t.Go? && t.next.ChoosingSite? ==>
         Lower(line) in dir && SitesFor(web, dir[Lower(line)]) == Some(t.next.sites)) &&
      (menu.ChoosingState? && t.Go? && t.next.ChoosingState? ==> Lower(line) !in dir && t.shown == [StateError])
  {
  }

  /** The rest of a session from `menu` on: one turn per line until a turn stops it. */
  function Run(web: Web, dir: map<string, string>, menu: Menu, inputs: seq<string>): (seq<Event>, End)
    decreases |inputs|
  {
    if inputs == [] then ([], InputExhausted)
    else
      match Step(web, dir, menu, inputs[0])
      case Stop(shown, end) => (shown, end)
      case Go(shown, next) => Then(shown, Run(web, dir, next, inputs[1..]))
  }

  /** The session from line `i` on is line `i`'s turn followed by the session from line `i + 1`. */
  lemma RunFrom(web: Web, dir: map<string, string>, menu: Menu, inputs: seq<string>, i: nat)
    requires i < |inputs|
    ensures Run(web, dir, menu, inputs[i..]) ==
      match Step(web, dir, menu, inputs[i])
      case Stop(shown, end) => (shown, end)
      case Go(shown, next) => Then(shown, Run(web, dir, next, inputs[i + 1..]))
  {
  }

  /** A whole session: the state directory first, then the menus. */
  function Session(web: Web, inputs: seq<string>): (seq<Event>, End)
  {
    match Directory(web)
    case None => ([], Crash)
    case Some(dir) => Run(web, dir, ChoosingState, inputs)
  }

  /** A session only quits on a typed "exit". */
  lemma {:induction false} QuitNeedsExit(web: Web, dir: map<string, string>, menu: Menu, inputs: seq<string>)
    requires Run(web, dir, menu, inputs).1 == Quit
    ensures "exit" in inputs
    decreases |inputs|
  {
    if inputs != [] && inputs[0] != "exit" {
      match Step(web, dir, menu, inputs[0])
      case Stop(_, _) =>
      case Go(_, next) =>
        QuitNeedsExit(web, dir, next, inputs[1..]);
        assert inputs == [inputs[0]] + inputs[1..];
    }
  }

  /**
   * The inner loop of `user_interface`: site choices for one listed state,
   * from line `start` on, until "back" (`end` is `None` and `next` is the
   * line after it) or the session ends.
   */
  method SiteMenu(web: Web, ghost dir: map<string, string>, sList: seq<NationalSite>,
                  inputs: seq<string>, start: nat, api: Cache)
    returns (shown: seq<Event>, next: nat, end: Option<End>)
    requires start <= |inputs|
    requires api.Valid() && api.Agrees(ApiSource(web))
    modifies api
    ensures api.Valid() && api.Agrees(ApiSource(web))
    ensures Extends(old(api.entries), api.entries)
    ensures api.entries.Keys <= old(api.entries).Keys + Zipcodes(sList)
    ensures end.None? ==>
      (start < next <= |inputs| &&
       Run(web, dir, ChoosingSite(sList), inputs[start..]) == Then(shown, Run(web, dir, ChoosingState, inputs[next..])))
    ensures end.Some? ==> Run(web, dir, ChoosingSite(sList), inputs[start..]) == (shown, end.value)
  {
    ghost var menu := ChoosingSite(sList);
    shown := [];
    var i := start;
    assert [] + Run(web, dir, menu, inputs[i..]).0 == Run(web, dir, menu, inputs[i..]).0;
    while true
      invariant start <= i <= |inputs|
      invariant api.Valid() && api.Agrees(ApiSource(web))
      invariant Extends(old(api.entries), api.entries)
      invariant api.entries.Keys <= old(api.entries).Keys + Zipcodes(sList)
      invariant Run(web, dir, menu, inputs[start..]) == Then(shown, Run(web, dir, menu, inputs[i..]))
      decreases |inputs| - i
    {
      assert shown + [] == shown;
      if i == |inputs| {
        return shown, i, Some(InputExhausted);
      }
      var choice := inputs[i];
      RunFrom(web, dir, menu, inputs, i);
      i := i + 1;
      if choice == "exit" {
        return shown, i, Some(Quit);
      } else if choice == "back" {
        ThenThen(shown, [], Run(web, dir, ChoosingState, inputs[i..]));
        return shown, i, None;
      } else if IsNumeric(choice) {
        var c := ParseNat(choice);
        if c <= |sList| + 1 {
          var k := c - 1;
          if k < 0 {
            k := k + |sList|;
          }
          if k < 0 || k >= |sList| {
            return shown, i, Some(Crash);
          }
          assert SiteChoice(choice, |sList|) == Pick(k);
          var site := sList[k];
          ghost var before := api.entries;
          var results := GetNearbyPlaces(site, api, web);
          ExtendsTransitive(old(api.entries), before, api.entries);
          if results.None? {
            return shown + [PlacesNear(site.name)], i, Some(Crash);
          }
          var places := PrintNearby(results.value);
          assert places == NearbyPlaces(results.value);
          ThenThen(shown, [PlacesNear(site.name), Nearby(places)], Run(web, dir, menu, inputs[i..]));
          shown := shown + [PlacesNear(site.name), Nearby(places)];
        } else {
          ThenThen(shown, [InvalidInput], Run(web, dir, menu, inputs[i..]));
          shown := shown + [InvalidInput];
        }
      } else {
        ThenThen(shown, [InvalidInput], Run(web, dir, menu, inputs[i..]));
        shown := shown + [InvalidInput];
      }
    }
  }

  /**
   * `user_interface()`: both caches start empty, the state directory is
   * built once, then the two nested loops read one line per turn. What
   * the caches hold never shows: the session is the one `Session`
   * describes with every page read from the network.
   */
  method UserInterface(web: Web, inputs: seq<string>) returns (shown: seq<Event>, end: End)
    ensures (shown, end) == Session(web, inputs)
  {
    var pages := new Cache();
    var api := new Cache();
    var stateUrls := BuildStateUrlDict(web);
    if stateUrls.None? {
      return [], Crash;
    }
    ghost var dir := stateUrls.value;
    shown := [];
    var i := 0;
    assert inputs[i..] == inputs;
    assert [] + Run(web, dir, ChoosingState, inputs).0 == Run(web, dir, ChoosingState, inputs).0;
    while true
      invariant 0 <= i <= |inputs|
      invariant pages.Valid() && pages.Agrees(web.net)
      invariant api.Valid() && api.Agrees(ApiSource(web))
      invariant Session(web, inputs) == Then(shown, Run(web, dir, ChoosingState, inputs[i..]))
      decreases |inputs| - i
    {
      assert shown + [] == shown;
      if i == |inputs| {
        return shown, InputExhausted;
      }
      var state := inputs[i];
      RunFrom(web, dir, ChoosingState, inputs, i);
      i := i + 1;
      if state == "exit" {
        return shown, Quit;
      } else if Lower(state) !in stateUrls.value {
        ThenThen(shown, [StateError], Run(web, dir, ChoosingState, inputs[i..]));
        shown := shown + [StateError];
      } else {
        var found := GetSitesForState(stateUrls.value[Lower(state)], pages, web);
        if found.None? {
          return shown, Crash;
        }
        var sList := found.value;
        var lines := PrintSites(sList);
        var heading := shown + [SiteList(state, lines)];
        ThenThen(shown, [SiteList(state, lines)], Run(web, dir, ChoosingSite(sList), inputs[i..]));
        var more, after, stop := SiteMenu(web, dir, sList, inputs, i, api);
        if stop.Some? {
          return heading + more, stop.value;
        }
        ThenThen(heading, more, Run(web, dir, ChoosingState, inputs[after..]));
        shown, i := heading + more, after;
      }
    }
  }
}
