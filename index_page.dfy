/** The catalogue page of src/pages/Index.tsx: how the active tab and the filter panel become
    a catalogue query, how loaded pages replace or extend the shown lists, when more can be
    loaded, and the statistics over the loaded games. The store is the `fetch` function of
    the catalogue service model; each handler runs to completion before the next starts. */
module IndexPage {
  import opened Common
  import opened GoogleDrive
  import opened GameFilters

  const PageSize := 12
  const ApplyLimit := 20
  const ApplyError := "Ошибка применения фильтров"

  // ---------------------------------------------------------------------------
  // From tab and panel to the service's filter argument

  /** The order and free flag a tab imposes: "trending" sorts by popularity, "top" by rating,
      "free" asks for free games in newest order, and every other tab (including "all" and
      "new") asks for the newest games with no free flag. */
  function TabSettings(tab: string): (r: (SortBy, FreeArg))
    ensures r.1 != FreeNull && (r.1.FreeIs? ==> r.1 == FreeIs(true))
    ensures r.1 == FreeIs(true) <==> tab == "free"
    ensures r.0 == Popular <==> tab == "trending"
    ensures r.0 == ByRating <==> tab == "top"
    ensures r.0 == Newest <==> tab != "trending" && tab != "top"
  {
    match tab
    case "trending" => (Popular, FreeUndefined)
    case "new" => (Newest, FreeUndefined)
    case "free" => (Newest, FreeIs(true))
    case "top" => (ByRating, FreeUndefined)
    case _ => (Newest, FreeUndefined)
  }

  /** The panel's `isFree` handed on as is: `null` stays `null`. */
  function PanelFree(isFree: Option<bool>): (r: FreeArg)
    ensures r != FreeUndefined
    ensures r == FreeNull <==> isFree.None?
  {
    if isFree.Some? then FreeIs(isFree.value) else FreeNull
  }

  /** The argument of `getGames` in `loadGames`: the panel's search, genre and platform, the
      tab's order and free flag, the given cursor and a page of 12. */
  function LoadFilter(panel: Filters, tab: string, cursor: Option<GameDoc>): (r: GamesFilter)
    ensures r.genre == panel.genre && r.platform == panel.platform && r.search == panel.search
    ensures r.sortBy == Some(TabSettings(tab).0) && r.isFree == TabSettings(tab).1
    ensures r.lastDoc == cursor && r.limitCount == PageSize
  {
    var (sortBy, isFree) := TabSettings(tab);
    GamesFilter(panel.genre, panel.platform, isFree, panel.search, Some(sortBy), cursor, PageSize)
  }

  /** The tab overrides the panel: the panel's order, free flag, price range, rating and tags
      never reach the query of `loadGames`. */
  lemma TabOverridesPanel(a: Filters, b: Filters, tab: string, cursor: Option<GameDoc>)
    requires a.genre == b.genre && a.platform == b.platform && a.search == b.search
    ensures QueryFor(LoadFilter(a, tab, cursor)) == QueryFor(LoadFilter(b, tab, cursor))
  {
  }

  /** The argument of `getGames` in `applyFilters`: the panel as it is, with no cursor and a
      limit of 20. */
  function ApplyFilter(panel: Filters): (r: GamesFilter)
    ensures r.genre == panel.genre && r.platform == panel.platform && r.search == panel.search
    ensures r.sortBy == Some(panel.sortBy) && r.isFree == PanelFree(panel.isFree)
    ensures r.lastDoc == None && r.limitCount == ApplyLimit
  {
    GamesFilter(panel.genre, panel.platform, PanelFree(panel.isFree), panel.search,
                Some(panel.sortBy), None, ApplyLimit)
  }

  /** With the panel's free flag unset (its default), `applyFilters` asks for games whose
      isFree is `null`; no stored game has one, so a conforming store answers nothing. */
  lemma ApplyWithUnsetFreeFindsNothing(panel: Filters, docs: seq<GameDoc>)
    requires panel.isFree.None?
    requires Answers(QueryFor(ApplyFilter(panel)), docs)
    ensures docs == []
  {
    var q := QueryFor(ApplyFilter(panel));
    var p := Equals(IsFreeField, Null);
    assert p in q.where;
    assert forall d :: d in docs ==> Satisfies(d.data, p);
    assert forall d: GameDoc :: !Satisfies(d.data, p);
    assert forall d :: d !in docs;
    if docs != [] {
      HeadIsMember(docs);
    }
  }

  lemma HeadIsMember(docs: seq<GameDoc>)
    requires docs != []
    ensures docs[0] in docs
  {
  }

  // ---------------------------------------------------------------------------
  // Statistics

  /** `games.reduce((sum, game) => sum + game.downloadCount, 0)` */
  function TotalDownloads(games: seq<GameData>): (n: int)
    ensures (forall i :: 0 <= i < |games| ==> games[i].downloadCount >= 0) ==>
      forall i :: 0 <= i < |games| ==> games[i].downloadCount <= n
  {
    if games == [] then 0 else TotalDownloads(games[..|games| - 1]) + games[|games| - 1].downloadCount
  }

  /** `games.filter(game => game.isFree).length` */
  function FreeCount(games: seq<GameData>): (n: nat)
    ensures n <= |games|
  {
    if games == [] then 0 else FreeCount(games[..|games| - 1]) + (if games[|games| - 1].isFree then 1 else 0)
  }

  /** Both statistics add up over an appended page. */
  lemma {:induction false} StatsAppend(a: seq<GameData>, b: seq<GameData>)
    ensures TotalDownloads(a + b) == TotalDownloads(a) + TotalDownloads(b)
    ensures FreeCount(a + b) == FreeCount(a) + FreeCount(b)
    decreases |b|
  {
    if b == [] {
      assert a + b == a;
    } else {
      var c := b[..|b| - 1];
      assert (a + b)[..|a + b| - 1] == a + c;
      StatsAppend(a, c);
    }
  }

  /** The free count is the number of positions that hold a free game. */
  lemma {:induction false} FreeCountMeaning(games: seq<GameData>)
    ensures FreeCount(games) == |set i | 0 <= i < |games| && games[i].isFree|
  {
    if games != [] {
      var last := |games| - 1;
      var init := games[..last];
      FreeCountMeaning(init);
      var s := set i | 0 <= i < |games| && games[i].isFree;
      var s0 := set i | 0 <= i < |init| && init[i].isFree;
      if games[last].isFree {
        assert s == s0 + {last};
      } else {
        assert s == s0;
      }
    }
  }

  /** The downloads total is never negative when no game's count is. */
  lemma {:induction false} DownloadsNonNegative(games: seq<GameData>)
    requires forall g :: g in games ==> g.downloadCount >= 0
    ensures TotalDownloads(games) >= 0
  {
    if games != [] {
      var init := games[..|games| - 1];
      assert forall g :: g in init ==> g in games;
      DownloadsNonNegative(init);
      assert games[|games| - 1] in games;
    }
  }

  /** A page that comes back with 12 games came from a full server page of 12 documents, so
      `hasMore` is never set on a short server page; a search that filters a full page down
      leaves `hasMore` false although more may exist. */
  lemma HasMoreMeansFullServerPage(panel: Filters, tab: string, cursor: Option<GameDoc>,
                                   docs: seq<GameDoc>, page: GamesPage)
    requires Answers(QueryFor(LoadFilter(panel, tab, cursor)), docs)
    requires ValidPage(LoadFilter(panel, tab, cursor), docs, page)
    requires |page.games| == PageSize
    ensures |docs| == PageSize
  {
    PageWithinLimit(LoadFilter(panel, tab, cursor), docs, page);
  }

  // ---------------------------------------------------------------------------
  // The page

  class CatalogPage {
    var games: seq<GameData>
    var filteredGames: seq<GameData>
    var loading: bool
    var error: string
    var activeTab: string
    var lastDoc: Option<GameDoc>
    var hasMore: bool
    var filters: Filters

    /** The state before the first load: loading, on the "all" tab, with the default panel. */
    constructor ()
      ensures games == [] && filteredGames == [] && loading && error == ""
      ensures activeTab == "all" && lastDoc == None && hasMore && filters == DefaultFilters
    {
      games := [];
      filteredGames := [];
      loading := true;
      error := "";
      activeTab := "all";
      lastDoc := None;
      hasMore := true;
      filters := DefaultFilters;
    }

    /** `loadGames(reset)`: a reset load starts from no cursor and replaces both lists; any
        other load continues from the stored cursor and appends to both. Either way the cursor
        is replaced and `hasMore` records whether a full page of 12 came back. A failed fetch
        only sets the error. The returned page is the one shown. */
    method LoadGames(reset: bool, fetch: Query -> Option<seq<GameDoc>>) returns (page: Option<GamesPage>)
      modifies this
      ensures var f := LoadFilter(old(filters), old(activeTab), if reset then None else old(lastDoc));
        fetch(QueryFor(f)).None? ==>
          page.None? && error == LoadGamesError &&
          games == old(games) && filteredGames == old(filteredGames) &&
          lastDoc == old(lastDoc) && hasMore == old(hasMore)
      ensures var f := LoadFilter(old(filters), old(activeTab), if reset then None else old(lastDoc));
        fetch(QueryFor(f)).Some? ==>
          page.Some? && ValidPage(f, fetch(QueryFor(f)).value, page.value) && error == "" &&
          games == (if reset then [] else old(games)) + page.value.games &&
          filteredGames == (if reset then [] else old(filteredGames)) + page.value.games &&
          lastDoc == page.value.lastDoc && hasMore == (|page.value.games| == PageSize)
      ensures !loading && activeTab == old(activeTab) && filters == old(filters)
    {
      var f := LoadFilter(filters, activeTab, if reset then None else lastDoc);
      loading := true;
      var r := GetGames(f, fetch);
      page := if r.Ok? then Some(r.value) else None;
      FinishLoad(reset, page);
    }

    /** The end of `loadGames`: on success replace or extend both lists, move the cursor and
        record whether a full page came back; on failure only set the error. */
    method FinishLoad(reset: bool, page: Option<GamesPage>)
      modifies this
      ensures page.None? ==>
        error == LoadGamesError && games == old(games) && filteredGames == old(filteredGames) &&
        lastDoc == old(lastDoc) && hasMore == old(hasMore)
      ensures page.Some? ==>
        error == "" &&
        games == (if reset then [] else old(games)) + page.value.games &&
        filteredGames == (if reset then [] else old(filteredGames)) + page.value.games &&
        lastDoc == page.value.lastDoc && hasMore == (|page.value.games| == PageSize)
      ensures !loading && activeTab == old(activeTab) && filters == old(filters)
    {
      if page.None? {
        error := LoadGamesError;
      } else if reset {
        games, filteredGames := page.value.games, page.value.games;
      } else {
        games, filteredGames := games + page.value.games, filteredGames + page.value.games;
      }
      if page.Some? {
        lastDoc, hasMore, error := page.value.lastDoc, |page.value.games| == PageSize, "";
      }
      loading := false;
    }

    /** `loadMore`: a continuing load, only when nothing is loading and more may exist. */
    method LoadMore(fetch: Query -> Option<seq<GameDoc>>) returns (page: Option<GamesPage>)
      modifies this
      ensures old(loading) || !old(hasMore) ==>
        page.None? && games == old(games) && filteredGames == old(filteredGames) &&
        lastDoc == old(lastDoc) && hasMore == old(hasMore) && loading == old(loading) &&
        error == old(error)
      ensures var f := LoadFilter(old(filters), old(activeTab), old(lastDoc));
        !old(loading) && old(hasMore) && fetch(QueryFor(f)).None? ==>
          page.None? && error == LoadGamesError && !loading &&
          games == old(games) && filteredGames == old(filteredGames) &&
          lastDoc == old(lastDoc) && hasMore == old(hasMore)
      ensures var f := LoadFilter(old(filters), old(activeTab), old(lastDoc));
        !old(loading) && old(hasMore) && fetch(QueryFor(f)).Some? ==>
          page.Some? && ValidPage(f, fetch(QueryFor(f)).value, page.value) && error == "" && !loading &&
          games == old(games) + page.value.games && filteredGames == old(filteredGames) + page.value.games &&
          lastDoc == page.value.lastDoc && hasMore == (|page.value.games| == PageSize)
      ensures activeTab == old(activeTab) && filters == old(filters)
    {
      page := None;
      if !loading && hasMore {
        page := LoadGames(false, fetch);
      }
    }

    /** Choosing a tab; a change of tab triggers a reset load. */
    method SetActiveTab(tab: string, fetch: Query -> Option<seq<GameDoc>>) returns (page: Option<GamesPage>)
      modifies this
      ensures activeTab == tab && filters == old(filters)
      ensures tab == old(activeTab) ==>
        page.None? && games == old(games) && filteredGames == old(filteredGames) &&
        lastDoc == old(lastDoc) && hasMore == old(hasMore) && loading == old(loading)
      ensures var f := LoadFilter(old(filters), tab, None);
        tab != old(activeTab) && fetch(QueryFor(f)).None? ==>
          page.None? && error == LoadGamesError && !loading &&
          games == old(games) && filteredGames == old(filteredGames) &&
          lastDoc == old(lastDoc) && hasMore == old(hasMore)
      ensures var f := LoadFilter(old(filters), tab, None);
        tab != old(activeTab) && fetch(QueryFor(f)).Some? ==>
          page.Some? && ValidPage(f, fetch(QueryFor(f)).value, page.value) && error == "" && !loading &&
          games == page.value.games && filteredGames == page.value.games &&
          lastDoc == page.value.lastDoc && hasMore == (|page.value.games| == PageSize)
    {
      page := None;
      if tab != activeTab {
        activeTab := tab;
        page := LoadGames(true, fetch);
      }
    }

    /** The panel's change callback. */
    method SetFilters(f: Filters)
      modifies this
      ensures filters == f
      ensures games == old(games) && filteredGames == old(filteredGames) && lastDoc == old(lastDoc)
      ensures hasMore == old(hasMore) && loading == old(loading) && error == old(error) && activeTab == old(activeTab)
    {
      filters := f;
    }

    /** `applyFilters` with the filter record `panel` its closure captured: only
        `filteredGames` is replaced, by at most 20 games; the loaded list, the cursor and
        `hasMore` are untouched, and a failure sets the error without clearing it first. */
    method ApplyFilters(panel: Filters, fetch: Query -> Option<seq<GameDoc>>) returns (page: Option<GamesPage>)
      modifies this
      ensures fetch(QueryFor(ApplyFilter(panel))).None? ==>
        page.None? && error == ApplyError && filteredGames == old(filteredGames)
      ensures fetch(QueryFor(ApplyFilter(panel))).Some? ==>
        page.Some? && ValidPage(ApplyFilter(panel), fetch(QueryFor(ApplyFilter(panel))).value, page.value) &&
        filteredGames == page.value.games && error == old(error)
      ensures games == old(games) && lastDoc == old(lastDoc) && hasMore == old(hasMore)
      ensures filters == old(filters) && activeTab == old(activeTab) && !loading
    {
      loading := true;
      var r := GetGames(ApplyFilter(panel), fetch);
      page := if r.Ok? then Some(r.value) else None;
      FinishApply(page);
    }

    /** The end of `applyFilters`: show the page, or the error when there is none. */
    method FinishApply(page: Option<GamesPage>)
      modifies this
      ensures page.None? ==> error == ApplyError && filteredGames == old(filteredGames)
      ensures page.Some? ==> filteredGames == page.value.games && error == old(error)
      ensures games == old(games) && lastDoc == old(lastDoc) && hasMore == old(hasMore)
      ensures filters == old(filters) && activeTab == old(activeTab) && !loading
    {
      if page.None? {
        error := ApplyError;
      } else {
        filteredGames := page.value.games;
      }
      loading := false;
    }

    /** The "clear filters" buttons: the panel is reset to the default record, but the
        `applyFilters` they call still holds the record from before the reset, so the shown
        list is filtered by the old panel. */
    method ClearFilters(fetch: Query -> Option<seq<GameDoc>>) returns (page: Option<GamesPage>)
      modifies this
      ensures filters == DefaultFilters
      ensures fetch(QueryFor(ApplyFilter(old(filters)))).Some? ==>
        page.Some? && filteredGames == page.value.games &&
        ValidPage(ApplyFilter(old(filters)), fetch(QueryFor(ApplyFilter(old(filters)))).value, page.value)
      ensures fetch(QueryFor(ApplyFilter(old(filters)))).Some? ==> error == old(error)
      ensures fetch(QueryFor(ApplyFilter(old(filters)))).None? ==>
        page.None? && filteredGames == old(filteredGames) && error == ApplyError
      ensures games == old(games) && lastDoc == old(lastDoc) && hasMore == old(hasMore)
      ensures activeTab == old(activeTab) && !loading
    {
      var captured := filters;
      filters := DefaultFilters;
      page := ApplyFilters(captured, fetch);
    }
  }
}
