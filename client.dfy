/**
 * The browser-side state of the marketplace page: the filters a visitor has
 * chosen, the gig list the server last returned and how much of it is shown, the
 * workers list, and the query strings sent to the server. The DOM, fetch and
 * geolocation are not modelled: a response or a detected position arrives as a
 * method argument, and a rendered panel is returned as a value.
 */
module Client {
  import opened Common
  import opened Lists
  import opened Text
  import opened Records
  import opened Geo

  /** `gigsPerPage` */
  const GigsPerPage: nat := 9

  /** `currentFilters` */
  datatype Filters = Filters(category: string, search: string, sort: string)

  /** The filters of a fresh page, and what clearFilters restores. */
  const DefaultFilters := Filters("all", "", "newest")

  // ---------------------------------------------------------------------------
  // Query strings

  /** A value given to URLSearchParams.append: a string, or a number written out in decimal. */
  datatype ParamValue = Str(text: string) | Number(number: real)

  datatype Param = Param(key: string, value: ParamValue)

  /** URLSearchParams.get: the value of the first entry with that key. */
  function Lookup(params: seq<Param>, key: string): Option<ParamValue> {
    if params == [] then None
    else if params[0].key == key then Some(params[0].value)
    else Lookup(params[1..], key)
  }

  /** A key has no value exactly when no entry carries it. */
  lemma {:induction false} LookupNone(params: seq<Param>, key: string)
    ensures Lookup(params, key).None? <==> forall i :: 0 <= i < |params| ==> params[i].key != key
  {
    if params != [] {
      LookupNone(params[1..], key);
      assert forall i :: 1 <= i < |params| ==> params[i] == params[1..][i - 1];
    }
  }

  predicate KeysDistinct(params: seq<Param>) {
    forall i, j :: 0 <= i < j < |params| ==> params[i].key != params[j].key
  }

  /** Appending an entry leaves every earlier key's value alone and adds the new key if it was absent. */
  lemma {:induction false} LookupAppend(params: seq<Param>, p: Param, key: string)
    ensures Lookup(params + [p], key)
         == if Lookup(params, key).Some? then Lookup(params, key)
            else if p.key == key then Some(p.value)
            else None
  {
    if params != [] {
      assert (params + [p])[1..] == params[1..] + [p];
      LookupAppend(params[1..], p, key);
    }
  }

  /** Appending an entry whose key is absent adds that key and leaves every other key's value alone. */
  lemma AppendFresh(params: seq<Param>, p: Param)
    requires Lookup(params, p.key).None?
    ensures Lookup(params + [p], p.key) == Some(p.value)
    ensures forall k :: k != p.key ==> Lookup(params + [p], k) == Lookup(params, k)
    ensures KeysDistinct(params) ==> KeysDistinct(params + [p])
  {
    LookupNone(params, p.key);
    forall k ensures Lookup(params + [p], k) == if k == p.key then Some(p.value) else Lookup(params, k) {
      LookupAppend(params, p, k);
    }
  }

  /** The keys loadGigsFromAPI may send. */
  predicate GigParamKey(key: string) {
    key == "category" || key == "search" || key == "sort" || key == "lat" || key == "lng" || key == "radiusKm"
  }

  /** The position part of a query string, present exactly when the position is known. */
  predicate PositionParams(params: seq<Param>, coords: Option<Point>) {
    && Lookup(params, "lat") == (if coords.Some? then Some(Number(coords.value.lat)) else None)
    && Lookup(params, "lng") == (if coords.Some? then Some(Number(coords.value.lng)) else None)
    && Lookup(params, "radiusKm") == (if coords.Some? then Some(Number(25.0)) else None)
  }

  /** Appends `lat`, `lng` and `radiusKm=25` when the position is known. */
  method AppendPosition(params0: seq<Param>, coords: Option<Point>) returns (params: seq<Param>)
    requires Lookup(params0, "lat").None? && Lookup(params0, "lng").None? && Lookup(params0, "radiusKm").None?
    ensures PositionParams(params, coords)
    ensures forall k :: k != "lat" && k != "lng" && k != "radiusKm" ==> Lookup(params, k) == Lookup(params0, k)
    ensures |params0| <= |params| && params[..|params0|] == params0
    ensures forall i :: |params0| <= i < |params| ==>
      params[i].key == "lat" || params[i].key == "lng" || params[i].key == "radiusKm"
    ensures KeysDistinct(params0) ==> KeysDistinct(params)
  {
    params := params0;
    if coords.Some? {
      var lat, lng := Param("lat", Number(coords.value.lat)), Param("lng", Number(coords.value.lng));
      var radius := Param("radiusKm", Number(25.0));
      AppendFresh(params0, lat);
      var p1 := params0 + [lat];
      AppendFresh(p1, lng);
      var p2 := p1 + [lng];
      AppendFresh(p2, radius);
      params := p2 + [radius];
      assert params[..|params0|] == params0;
    }
  }

  /** The filter part of loadGigsFromAPI's query string. */
  method AppendFilters(filters: Filters) returns (params: seq<Param>)
    ensures Lookup(params, "category") == (if filters.category != "all" then Some(Str(filters.category)) else None)
    ensures Lookup(params, "search") == (if filters.search != "" then Some(Str(filters.search)) else None)
    ensures Lookup(params, "sort") == (if filters.sort != "" then Some(Str(filters.sort)) else None)
    ensures forall i :: 0 <= i < |params| ==> params[i].key in {"category", "search", "sort"}
    ensures KeysDistinct(params)
  {
    var category, search, sort := Param("category", Str(filters.category)),
      Param("search", Str(filters.search)), Param("sort", Str(filters.sort));
    params := [];
    if filters.category != "all" {
      AppendFresh(params, category);
      params := params + [category];
    }
    if filters.search != "" {
      AppendFresh(params, search);
      params := params + [search];
    }
    if filters.sort != "" {
      AppendFresh(params, sort);
      params := params + [sort];
    }
  }

  /**
   * The query string of loadGigsFromAPI: `category` unless it is "all", `search`
   * and `sort` unless empty, and the position with a 25 km radius when known;
   * no key twice and no other key.
   */
  method GigParams(filters: Filters, coords: Option<Point>) returns (params: seq<Param>)
    ensures Lookup(params, "category") == (if filters.category != "all" then Some(Str(filters.category)) else None)
    ensures Lookup(params, "search") == (if filters.search != "" then Some(Str(filters.search)) else None)
    ensures Lookup(params, "sort") == (if filters.sort != "" then Some(Str(filters.sort)) else None)
    ensures PositionParams(params, coords)
    ensures forall i :: 0 <= i < |params| ==> GigParamKey(params[i].key)
    ensures KeysDistinct(params)
  {
    params := AppendFilters(filters);
    LookupNone(params, "lat");
    LookupNone(params, "lng");
    LookupNone(params, "radiusKm");
    params := AppendPosition(params, coords);
  }

  /** The query string of loadUsers: only the position, when known. */
  method WorkerParams(coords: Option<Point>) returns (params: seq<Param>)
    ensures PositionParams(params, coords)
    ensures Lookup(params, "search").None?
    ensures coords.None? ==> params == []
    ensures KeysDistinct(params)
  {
    params := AppendPosition([], coords);
  }

  // ---------------------------------------------------------------------------
  // What the page shows

  function Min(a: nat, b: nat): nat {
    if a <= b then a else b
  }

  /** `filteredGigs.slice(0, currentPage * gigsPerPage)` */
  function Window(gigs: seq<Gig>, page: nat): (w: seq<Gig>)
    ensures |w| == Min(page * GigsPerPage, |gigs|)
    ensures w == gigs[..|w|]
  {
    gigs[..Min(page * GigsPerPage, |gigs|)]
  }

  /** The gigs panel: a "no results" notice, or a grid with or without its load-more control. */
  datatype GigsView = NoResults | Grid(shown: seq<Gig>, loadMore: bool)

  /** renderGigs */
  function RenderGigs(gigs: seq<Gig>, page: nat): GigsView {
    var shown := Window(gigs, page);
    if |shown| == 0 then NoResults
    else Grid(shown, !(page * GigsPerPage >= |gigs|))
  }

  /** The load-more control is offered exactly when some gig is not yet shown. */
  lemma LoadMoreIffHidden(gigs: seq<Gig>, page: nat)
    requires RenderGigs(gigs, page).Grid?
    ensures RenderGigs(gigs, page).loadMore <==> |RenderGigs(gigs, page).shown| < |gigs|
  {
  }

  /** From the first page on, the notice appears exactly when the list is empty. */
  lemma NoResultsIffEmpty(gigs: seq<Gig>, page: nat)
    requires page >= 1
    ensures RenderGigs(gigs, page) == NoResults <==> gigs == []
  {
  }

  /** One more page shows the same gigs followed by up to nine more, in list order. */
  lemma NextPageExtends(gigs: seq<Gig>, page: nat)
    ensures var w := Window(gigs, page);
      Window(gigs, page + 1) == w + gigs[|w|..|w| + Min(GigsPerPage, |gigs| - |w|)]
  {
  }

  /** `${count} ${noun}${count !== 1 ? 's' : ''} available` */
  function CountLabel(count: nat, noun: string): string {
    Decimal(count) + " " + noun + (if count != 1 then "s" else "") + " available"
  }

  /** The noun is singular exactly when the count is 1. */
  lemma CountLabelSingularIffOne(count: nat, noun: string)
    ensures CountLabel(count, noun) == Decimal(count) + " " + noun + " available" <==> count == 1
  {
    if count != 1 {
      assert |CountLabel(count, noun)| == |Decimal(count) + " " + noun + " available"| + 1;
    }
  }

  /** Two different counts never read the same. */
  lemma CountLabelInjective(a: nat, b: nat, noun: string)
    requires CountLabel(a, noun) == CountLabel(b, noun)
    ensures a == b
  {
    var da, db := Decimal(a), Decimal(b);
    var s := CountLabel(a, noun);
    assert s == da + (" " + noun + (if a != 1 then "s" else "") + " available");
    assert s == db + (" " + noun + (if b != 1 then "s" else "") + " available");
    assert da == s[..|da|] == db;
  }

  /** updateGigsCount */
  function GigsCountLabel(gigs: seq<Gig>): string {
    CountLabel(|gigs|, "gig")
  }


  /** The workers panel: its count line and one card per worker (the notice when there are none). */
  datatype WorkersView = WorkersView(countLabel: string, cards: seq<User>)

  /** renderWorkers: only users of type "worker" are counted and shown, in list order. */
  function RenderWorkers(users: seq<User>): (v: WorkersView)
    ensures forall u :: u in v.cards <==> u in users && IsWorker(u)
    ensures forall u :: multiset(v.cards)[u] == if IsWorker(u) then multiset(users)[u] else 0
    ensures v.countLabel == CountLabel(|v.cards|, "worker")
  {
    FilterMembers(users, IsWorker);
    FilterCount(users, IsWorker);
    var workers := Filter(users, IsWorker);
    WorkersView(CountLabel(|workers|, "worker"), workers)
  }

  // ---------------------------------------------------------------------------
  // The page state

  class AppState {
    var currentGigs: seq<Gig>
    var filteredGigs: seq<Gig>
    var currentPage: nat
    var allUsers: seq<User>
    var currentCoords: Option<Point>
    var currentFilters: Filters

    /** The page counter starts at 1 and only ever grows. */
    ghost predicate Valid()
      reads this
    {
      currentPage >= 1
    }

    /** The state when the script loads. */
    constructor ()
      ensures Valid()
      ensures currentGigs == [] && filteredGigs == [] && allUsers == []
      ensures currentPage == 1 && currentCoords.None? && currentFilters == DefaultFilters
    {
      currentGigs := [];
      filteredGigs := [];
      currentPage := 1;
      allUsers := [];
      currentCoords := None;
      currentFilters := DefaultFilters;
    }

    /** The gigs panel for the current state. */
    function View(): GigsView
      reads this
    {
      RenderGigs(filteredGigs, currentPage)
    }

    /** loadMoreGigs: one more page, nothing else changes. */
    method LoadMoreGigs() returns (view: GigsView)
      requires Valid()
      modifies this
      ensures Valid()
      ensures currentPage == old(currentPage) + 1
      ensures filteredGigs == old(filteredGigs) && currentGigs == old(currentGigs)
      ensures currentFilters == old(currentFilters) && allUsers == old(allUsers)
      ensures currentCoords == old(currentCoords)
      ensures view == View()
      ensures view.Grid? ==> old(View()).Grid? && old(View()).shown <= view.shown
    {
      currentPage := currentPage + 1;
      view := RenderGigs(filteredGigs, currentPage);
      NextPageExtends(filteredGigs, old(currentPage));
    }

    /**
     * clearFilters: the filters become the defaults whatever they were, so a
     * second call changes nothing; the page counter is left as it is.
     */
    method ClearFilters()
      requires Valid()
      modifies this
      ensures Valid()
      ensures currentFilters == DefaultFilters
      ensures currentPage == old(currentPage)
      ensures filteredGigs == old(filteredGigs) && currentGigs == old(currentGigs)
      ensures allUsers == old(allUsers) && currentCoords == old(currentCoords)
    {
      currentFilters := Filters("all", "", "newest");
    }

    /** handleSearch: the search term is stored lower-cased. */
    method HandleSearch(value: string)
      requires Valid()
      modifies this
      ensures Valid()
      ensures currentFilters == old(currentFilters).(search := Lower(value))
      ensures Lower(currentFilters.search) == currentFilters.search
      ensures currentPage == old(currentPage)
      ensures filteredGigs == old(filteredGigs) && currentGigs == old(currentGigs)
      ensures allUsers == old(allUsers) && currentCoords == old(currentCoords)
    {
      currentFilters := currentFilters.(search := Lower(value));
      LowerIdempotent(value);
    }

    /** handleCategoryFilter */
    method HandleCategoryFilter(category: string)
      requires Valid()
      modifies this
      ensures Valid()
      ensures currentFilters == old(currentFilters).(category := category)
      ensures currentPage == old(currentPage)
      ensures filteredGigs == old(filteredGigs) && currentGigs == old(currentGigs)
      ensures allUsers == old(allUsers) && currentCoords == old(currentCoords)
    {
      currentFilters := currentFilters.(category := category);
    }

    /** handleSort */
    method HandleSort(sort: string)
      requires Valid()
      modifies this
      ensures Valid()
      ensures currentFilters == old(currentFilters).(sort := sort)
      ensures currentPage == old(currentPage)
      ensures filteredGigs == old(filteredGigs) && currentGigs == old(currentGigs)
      ensures allUsers == old(allUsers) && currentCoords == old(currentCoords)
    {
      currentFilters := currentFilters.(sort := sort);
    }

    /** The query string applyFilters sends for the current filters and position. */
    method GigsRequest() returns (params: seq<Param>)
      ensures Lookup(params, "category") ==
        (if currentFilters.category != "all" then Some(Str(currentFilters.category)) else None)
      ensures Lookup(params, "search") ==
        (if currentFilters.search != "" then Some(Str(currentFilters.search)) else None)
      ensures Lookup(params, "sort") ==
        (if currentFilters.sort != "" then Some(Str(currentFilters.sort)) else None)
      ensures PositionParams(params, currentCoords)
    {
      params := GigParams(currentFilters, currentCoords);
    }

    /**
     * The response of loadGigsFromAPI: both gig lists become the returned list,
     * the page counter is kept, and the panel and count are redrawn.
     */
    method OnGigsLoaded(gigs: seq<Gig>) returns (view: GigsView, countLabel: string)
      requires Valid()
      modifies this
      ensures Valid()
      ensures currentGigs == gigs && filteredGigs == gigs
      ensures currentPage == old(currentPage) && currentFilters == old(currentFilters)
      ensures allUsers == old(allUsers) && currentCoords == old(currentCoords)
      ensures view == View()
      ensures countLabel == CountLabel(|gigs|, "gig")
    {
      currentGigs := gigs;
      filteredGigs := gigs;
      view := RenderGigs(filteredGigs, currentPage);
      countLabel := GigsCountLabel(filteredGigs);
    }

    /** The response of loadUsers: `data.users || []`, then the workers panel is redrawn. */
    method OnUsersLoaded(users: Option<seq<User>>) returns (view: WorkersView)
      requires Valid()
      modifies this
      ensures Valid()
      ensures allUsers == (if users.Some? then users.value else [])
      ensures currentGigs == old(currentGigs) && filteredGigs == old(filteredGigs)
      ensures currentPage == old(currentPage) && currentFilters == old(currentFilters)
      ensures currentCoords == old(currentCoords)
      ensures view == RenderWorkers(allUsers)
    {
      allUsers := if users.Some? then users.value else [];
      view := RenderWorkers(allUsers);
    }

    /** A detected position is kept for every later request. */
    method OnLocationDetected(here: Point)
      requires Valid()
      modifies this
      ensures Valid()
      ensures currentCoords == Some(here)
      ensures currentGigs == old(currentGigs) && filteredGigs == old(filteredGigs)
      ensures currentPage == old(currentPage) && currentFilters == old(currentFilters)
      ensures allUsers == old(allUsers)
    {
      currentCoords := Some(here);
    }
  }
}
