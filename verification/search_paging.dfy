/** `distinctBy`, the de-duplication the search screens apply when they
    append a page of results to the ones already shown. */
module DistinctBy {

  /** The set of ids present in `s`. */
  function Ids<T>(s: seq<T>, id: T -> int): set<int> {
    set i | 0 <= i < |s| :: id(s[i])
  }

  predicate UniqueIds<T>(s: seq<T>, id: T -> int) {
    forall i, j :: 0 <= i < j < |s| ==> id(s[i]) != id(s[j])
  }

  /** Kotlin `distinctBy`: the first element for every id, in order. */
  function Distinct<T>(s: seq<T>, id: T -> int): (r: seq<T>)
    ensures UniqueIds(r, id)
    ensures Ids(r, id) == Ids(s, id)
    ensures forall j :: 0 <= j < |r| ==> r[j] in s
    ensures |r| <= |s|
  {
    if |s| == 0 then []
    else
      var init := s[..|s| - 1];
      var last := s[|s| - 1];
      var d := Distinct(init, id);
      assert s == init + [last];
      assert Ids(s, id) == Ids(init, id) + {id(last)} by {
        forall k | k in Ids(s, id) ensures k in Ids(init, id) + {id(last)} {
          var i :| 0 <= i < |s| && id(s[i]) == k;
          if i < |s| - 1 { assert s[i] == init[i]; }
        }
        forall k | k in Ids(init, id) ensures k in Ids(s, id) {
          var i :| 0 <= i < |init| && id(init[i]) == k;
          assert s[i] == init[i];
        }
      }
      if id(last) in Ids(d, id) then d
      else
        var r := d + [last];
        assert Ids(r, id) == Ids(d, id) + {id(last)} by {
          forall k | k in Ids(r, id) ensures k in Ids(d, id) + {id(last)} {
            var i :| 0 <= i < |r| && id(r[i]) == k;
            if i < |d| { assert r[i] == d[i]; } else { assert r[i] == last; }
          }
          forall k | k in Ids(d, id) + {id(last)} ensures k in Ids(r, id) {
            if k == id(last) {
              assert r[|d|] == last;
            } else {
              var i :| 0 <= i < |d| && id(d[i]) == k;
              assert r[i] == d[i];
            }
          }
        }
        assert forall j :: 0 <= j < |d| ==> id(d[j]) in Ids(d, id);
        r
  }

  /** The first element carrying an id always survives. */
  lemma {:induction false} DistinctKeepsFirstOccurrence<T>(s: seq<T>, id: T -> int, i: nat)
    requires i < |s|
    requires forall k :: 0 <= k < i ==> id(s[k]) != id(s[i])
    ensures s[i] in Distinct(s, id)
  {
    var init := s[..|s| - 1];
    if i < |s| - 1 {
      DistinctKeepsFirstOccurrence(init, id, i);
    } else {
      assert forall k :: 0 <= k < |init| ==> init[k] == s[k];
    }
  }

  /** A list that already has unique ids is left as it is. */
  lemma {:induction false} DistinctOfUnique<T>(s: seq<T>, id: T -> int)
    requires UniqueIds(s, id)
    ensures Distinct(s, id) == s
  {
    if |s| > 0 {
      var init := s[..|s| - 1];
      DistinctOfUnique(init, id);
      assert forall k :: 0 <= k < |init| ==> init[k] == s[k];
      assert s == init + [s[|s| - 1]];
    }
  }

  /** Appending to a list with unique ids keeps that list in front. */
  lemma {:induction false} DistinctKeepsPrefix<T>(shown: seq<T>, page: seq<T>, id: T -> int)
    requires UniqueIds(shown, id)
    ensures |Distinct(shown + page, id)| >= |shown|
    ensures Distinct(shown + page, id)[..|shown|] == shown
  {
    if |page| == 0 {
      assert shown + page == shown;
      DistinctOfUnique(shown, id);
    } else {
      var init := page[..|page| - 1];
      DistinctKeepsPrefix(shown, init, id);
      assert (shown + page)[..|shown + page| - 1] == shown + init;
    }
  }

  /** `s[i]` is the first element of `s` carrying its id. */
  predicate IsFirst<T>(s: seq<T>, id: T -> int, i: int) {
    0 <= i < |s| && forall k :: 0 <= k < i ==> id(s[k]) != id(s[i])
  }

  /** An independent description of what `distinctBy` keeps: the positions
      of first occurrences, in increasing order. */
  function FirstIndices<T>(s: seq<T>, id: T -> int): (ks: seq<nat>)
    ensures forall a, b :: 0 <= a < b < |ks| ==> ks[a] < ks[b]
    ensures forall j :: 0 <= j < |ks| ==> ks[j] < |s|
    ensures forall i :: i in ks <==> IsFirst(s, id, i)
  {
    if |s| == 0 then []
    else
      var init := s[..|s| - 1];
      var ks := FirstIndices(init, id);
      assert forall i :: IsFirst(init, id, i) <==> i < |s| - 1 && IsFirst(s, id, i) by {
        assert forall k :: 0 <= k < |init| ==> init[k] == s[k];
      }
      if IsFirst(s, id, |s| - 1) then ks + [|s| - 1] else ks
  }

  /** `distinctBy` keeps exactly the first occurrence of every id, in the
      order of the input: its result is the input read at the increasing
      first-occurrence positions. */
  lemma {:induction false} DistinctPicksFirstOccurrences<T>(s: seq<T>, id: T -> int)
    ensures var ks := FirstIndices(s, id);
      |Distinct(s, id)| == |ks| && forall j :: 0 <= j < |ks| ==> Distinct(s, id)[j] == s[ks[j]]
  {
    if |s| > 0 {
      var init := s[..|s| - 1];
      var last := s[|s| - 1];
      DistinctPicksFirstOccurrences(init, id);
      var d := Distinct(init, id);
      var ks := FirstIndices(init, id);
      assert forall k :: 0 <= k < |init| ==> init[k] == s[k];
      if id(last) in Ids(d, id) {
        assert id(last) in Ids(init, id);
        var k :| 0 <= k < |init| && id(init[k]) == id(last);
        assert !IsFirst(s, id, |s| - 1);
        assert FirstIndices(s, id) == ks;
      } else {
        assert id(last) !in Ids(init, id);
        forall k | 0 <= k < |s| - 1 ensures id(s[k]) != id(last) {
          assert id(init[k]) in Ids(init, id);
        }
        assert IsFirst(s, id, |s| - 1);
        assert FirstIndices(s, id) == ks + [|s| - 1];
        assert Distinct(s, id) == d + [last];
      }
    }
  }

  /** De-duplicating twice is de-duplicating once. */
  lemma DistinctIsIdempotent<T>(s: seq<T>, id: T -> int)
    ensures Distinct(Distinct(s, id), id) == Distinct(s, id)
  {
    DistinctOfUnique(Distinct(s, id), id);
  }
}

/** The rules the two feature-search view models share: the blank-query
    empty state, the loading emission, the failure emission, combining with
    the loaded games, collecting, resetting and loading more. The page
    emission differs between them; this module holds the current view
    model's, and the older one keeps its own. */
module SearchPaging {
  import opened Text
  import opened DistinctBy

  /** A page request. `Pagination()` and `nextOffset()` are not part of this
      model: the first page and the advance are parameters. */
  datatype Pagination = Pagination(offset: int, limit: int)

  datatype GameItem = GameItem(id: int, name: string)

  function GameId(g: GameItem): int { g.id }

  /** The info title the string provider renders: the default prompt, or
      "nothing found for <query>". */
  datatype InfoTitle = DefaultTitle | NothingFoundTitle(query: string)

  datatype GamesUi = GamesUi(isLoading: bool, infoTitle: InfoTitle, games: seq<GameItem>)

  /** The paging half of a view model's state. */
  datatype Paging = Paging(
    pagination: Pagination,
    allLoadedGames: seq<GameItem>,
    hasMoreGamesToLoad: bool,
    gamesUi: GamesUi)

  /** `getUiStateInfoTitle`: the default prompt for a blank query. */
  function InfoTitleFor(query: string): (t: InfoTitle)
    ensures t == DefaultTitle <==> IsBlank(query)
    ensures !IsBlank(query) ==> t == NothingFoundTitle(query)
  {
    if IsBlank(query) then DefaultTitle else NothingFoundTitle(query)
  }

  function EmptyGamesUi(query: string): GamesUi {
    GamesUi(false, InfoTitleFor(query), [])
  }

  predicate HasLoadedNewGames(ui: GamesUi) {
    !ui.isLoading && |ui.games| > 0
  }

  /** `combineWithAlreadyLoadedGames`. */
  function Combine(ui: GamesUi, allLoadedGames: seq<GameItem>): (r: GamesUi)
    ensures !HasLoadedNewGames(ui) || |allLoadedGames| == 0 ==> r == ui
    ensures HasLoadedNewGames(ui) && |allLoadedGames| > 0 ==>
              r == ui.(games := Distinct(allLoadedGames + ui.games, GameId))
  {
    if !HasLoadedNewGames(ui) || |allLoadedGames| == 0 then ui
    else ui.(games := Distinct(allLoadedGames + ui.games, GameId))
  }

  /** One value reaching `collect`: combined with the loaded games, it
      sets "has more" and the loaded games when it carries new games, and
      it is shown. */
  function Collect(p: Paging, emitted: GamesUi): (r: Paging)
    requires p.pagination.limit != 0
    ensures r.gamesUi == Combine(emitted, p.allLoadedGames)
    ensures r.pagination == p.pagination
    ensures HasLoadedNewGames(r.gamesUi) ==>
              r.hasMoreGamesToLoad == (|r.gamesUi.games| % p.pagination.limit == 0) &&
              r.allLoadedGames == r.gamesUi.games
    ensures !HasLoadedNewGames(r.gamesUi) ==>
              r.hasMoreGamesToLoad == p.hasMoreGamesToLoad && r.allLoadedGames == p.allLoadedGames
  {
    var combined := Combine(emitted, p.allLoadedGames);
    if HasLoadedNewGames(combined) then
      Paging(p.pagination, combined.games, |combined.games| % p.pagination.limit == 0, combined)
    else p.(gamesUi := combined)
  }

  /** The first value a launched search emits: the empty state for a blank
      query, otherwise the loading state, which keeps the games on screen
      unless this is a new search. */
  function StartEmission(p: Paging, query: string): (ui: GamesUi)
    ensures IsBlank(query) ==> ui == EmptyGamesUi(query)
    ensures !IsBlank(query) ==> ui.isLoading
    ensures !IsBlank(query) && |p.allLoadedGames| == 0 ==> ui.games == []
    ensures !IsBlank(query) && |p.allLoadedGames| > 0 ==> ui.games == p.gamesUi.games
  {
    if IsBlank(query) then EmptyGamesUi(query)
    else p.gamesUi.(isLoading := true, games := if |p.allLoadedGames| == 0 then [] else p.gamesUi.games)
  }

  /** The value a page of results becomes before combining. */
  function PageEmission(p: Paging, query: string, games: seq<GameItem>): (ui: GamesUi)
    ensures ui == GamesUi(false, InfoTitleFor(query), games)
  {
    p.gamesUi.(isLoading := false, infoTitle := InfoTitleFor(query), games := games)
  }

  /** A command the view model dispatches to the screen. */
  datatype Command = ShowLongToast(message: string)

  /** `onError`: a failed search dispatches a long toast with the error
      mapper's message, which is a parameter here, and emits the empty
      state for the query. */
  function SearchFailed(query: string, message: string): (r: (GamesUi, Command))
    ensures r.1 == ShowLongToast(message)
    ensures !r.0.isLoading && r.0.games == [] && r.0.infoTitle == InfoTitleFor(query)
  {
    (EmptyGamesUi(query), ShowLongToast(message))
  }

  /** `resetPagination`. */
  function Reset(p: Paging, firstPage: Pagination): (r: Paging)
    ensures r.pagination == firstPage && r.allLoadedGames == []
    ensures r.hasMoreGamesToLoad == p.hasMoreGamesToLoad && r.gamesUi == p.gamesUi
  {
    p.(pagination := firstPage, allLoadedGames := [])
  }

  /** `loadMoreGames`: advances the page and launches a search only when
      more games are expected. */
  function LoadMore(p: Paging, next: Pagination -> Pagination): (r: (Paging, bool))
    ensures r.1 <==> p.hasMoreGamesToLoad
    ensures r.1 ==> r.0 == p.(pagination := next(p.pagination))
    ensures !r.1 ==> r.0 == p
  {
    if !p.hasMoreGamesToLoad then (p, false)
    else (p.(pagination := next(p.pagination)), true)
  }

  /** Appending a page keeps the games already shown, in place, and adds
      every new id exactly once. */
  lemma AppendingPageKeepsShownGames(p: Paging, emitted: GamesUi)
    requires p.pagination.limit != 0
    requires |p.allLoadedGames| > 0 && UniqueIds(p.allLoadedGames, GameId)
    requires HasLoadedNewGames(emitted)
    ensures var shown := Collect(p, emitted).gamesUi.games;
      |shown| >= |p.allLoadedGames| && shown[..|p.allLoadedGames|] == p.allLoadedGames &&
      UniqueIds(shown, GameId) &&
      Ids(shown, GameId) == Ids(p.allLoadedGames + emitted.games, GameId)
  {
    DistinctKeepsPrefix(p.allLoadedGames, emitted.games, GameId);
  }

  /** Once games are shown, every later collected value keeps the loaded
      games free of duplicate ids. */
  lemma CollectKeepsIdsUnique(p: Paging, emitted: GamesUi)
    requires p.pagination.limit != 0
    requires |p.allLoadedGames| > 0 && UniqueIds(p.allLoadedGames, GameId)
    ensures UniqueIds(Collect(p, emitted).allLoadedGames, GameId)
  {
  }

  /** The first page is shown as it arrives: with nothing loaded yet,
      `distinctBy` is skipped, so a first page holding one id twice keeps
      both. */
  lemma FirstPageIsNotDeduplicated(limit: int)
    requires limit != 0
    ensures var twice := [GameItem(7, "a"), GameItem(7, "b")];
      var p := Paging(Pagination(0, limit), [], false, GamesUi(false, DefaultTitle, []));
      Collect(p, GamesUi(false, DefaultTitle, twice)).gamesUi.games == twice
  {
  }

  /** A failed search, on any page, replaces the games on screen with the
      empty state, while the loaded games, "has more" and the page are
      kept, so a later bottom-reached loads the next page again. */
  lemma FailureShowsEmptyStateKeepsPaging(p: Paging, query: string, message: string)
    requires p.pagination.limit != 0
    ensures var after := Collect(p, SearchFailed(query, message).0);
      after.gamesUi == GamesUi(false, InfoTitleFor(query), []) &&
      after.allLoadedGames == p.allLoadedGames &&
      after.hasMoreGamesToLoad == p.hasMoreGamesToLoad &&
      after.pagination == p.pagination
  {
  }

  /** "Has more" follows a page whose size is a multiple of the limit: a
      full first page expects more, a short one does not. */
  lemma FullPageExpectsMore(p: Paging, emitted: GamesUi)
    requires p.pagination.limit > 0 && |p.allLoadedGames| == 0
    requires HasLoadedNewGames(emitted)
    ensures Collect(p, emitted).hasMoreGamesToLoad
        <==> |emitted.games| % p.pagination.limit == 0
    ensures |emitted.games| < p.pagination.limit ==> !Collect(p, emitted).hasMoreGamesToLoad
  {
  }
}

/** The feature-search view model of the current screens: the typed query
    and the confirmed query are kept apart. */
module GamesSearch {
  import opened Results
  import opened Text
  import opened SearchPaging

  datatype State = State(
    queryText: string,
    currentSearchQuery: string,
    confirmedSearchQuery: string,
    paging: Paging)

  /** A step: the new state and whether a search was launched. */
  datatype Step = Step(state: State, searchLaunched: bool)

  /** `onToolbarClearButtonClicked` clears the text field only. */
  function ClearButtonClicked(s: State): (r: State)
    ensures r.queryText == "" && r.currentSearchQuery == s.currentSearchQuery
    ensures r.confirmedSearchQuery == s.confirmedSearchQuery && r.paging == s.paging
  {
    s.(queryText := "")
  }

  /** `onQueryChanged`: the current query and the text field follow. */
  function QueryChanged(s: State, text: string): (r: State)
    ensures r.queryText == text && r.currentSearchQuery == text
    ensures r.confirmedSearchQuery == s.confirmedSearchQuery && r.paging == s.paging
  {
    s.(currentSearchQuery := text, queryText := text)
  }

  /** `onSearchConfirmed`: an empty or repeated query does nothing;
      otherwise the query becomes the confirmed one, paging starts over and
      a search is launched. */
  function SearchConfirmed(s: State, query: string, firstPage: Pagination): (r: Step)
    ensures r.searchLaunched <==> query != "" && query != s.confirmedSearchQuery
    ensures !r.searchLaunched ==> r.state == s
    ensures r.searchLaunched ==>
              r.state.confirmedSearchQuery == query &&
              r.state.paging == Reset(s.paging, firstPage) &&
              r.state.queryText == s.queryText && r.state.currentSearchQuery == s.currentSearchQuery
  {
    if query == "" || s.confirmedSearchQuery == query then Step(s, false)
    else Step(s.(confirmedSearchQuery := query, paging := Reset(s.paging, firstPage)), true)
  }

  /** `restoreState`: the saved current query is put back, and the saved
      confirmed query is searched again when it equals the current one. */
  function RestoreState(s: State, savedCurrent: Option<string>, savedConfirmed: Option<string>,
                        firstPage: Pagination): (r: Step)
    ensures savedCurrent.Some? ==> r.state.currentSearchQuery == savedCurrent.value
    ensures savedCurrent.None? ==> r.state.currentSearchQuery == s.currentSearchQuery
    ensures savedCurrent.Some? ==> r.state.queryText == savedCurrent.value
    ensures savedCurrent.None? ==> r.state.queryText == s.queryText
    ensures r.searchLaunched <==>
              savedConfirmed == Some(r.state.currentSearchQuery) &&
              savedConfirmed.value != "" && savedConfirmed.value != s.confirmedSearchQuery
    ensures r.searchLaunched ==>
              r.state.confirmedSearchQuery == savedConfirmed.value &&
              r.state.paging == Reset(s.paging, firstPage)
    ensures !r.searchLaunched ==>
              r.state.confirmedSearchQuery == s.confirmedSearchQuery && r.state.paging == s.paging
  {
    var restored := if savedCurrent.Some? then QueryChanged(s, savedCurrent.value) else s;
    if savedConfirmed == Some(restored.currentSearchQuery) then
      SearchConfirmed(restored, savedConfirmed.value, firstPage)
    else Step(restored, false)
  }

  /** A fresh screen brought back with the same non-empty query in both
      slots searches for it. */
  lemma RestoringSameQuerySearchesIt(query: string, paging: Paging, firstPage: Pagination)
    requires query != ""
    ensures var start := State("", "", "", paging);
      var r := RestoreState(start, Some(query), Some(query), firstPage);
      r.searchLaunched && r.state.confirmedSearchQuery == query && r.state.paging.allLoadedGames == []
  {
  }

  /** `onBottomReached`. */
  function BottomReached(s: State, next: Pagination -> Pagination): (r: Step)
    ensures r.searchLaunched <==> s.paging.hasMoreGamesToLoad
    ensures r.state.paging.allLoadedGames == s.paging.allLoadedGames
    ensures r.state.confirmedSearchQuery == s.confirmedSearchQuery
    ensures r.searchLaunched ==> r.state == s.(paging := s.paging.(pagination := next(s.paging.pagination)))
    ensures !r.searchLaunched ==> r.state == s
  {
    var (p, launched) := LoadMore(s.paging, next);
    Step(s.(paging := p), launched)
  }

  /** A blank confirmed query (blank but not empty, so it is accepted)
      shows the empty state instead of searching. */
  lemma BlankQueryShowsEmptyState(s: State, query: string, firstPage: Pagination)
    requires query != "" && query != s.confirmedSearchQuery && IsBlank(query)
    requires firstPage.limit != 0
    ensures var after := SearchConfirmed(s, query, firstPage).state;
      var shown := Collect(after.paging, StartEmission(after.paging, after.confirmedSearchQuery)).gamesUi;
      shown == GamesUi(false, DefaultTitle, [])
  {
  }
}

/** The older feature-search view model: one search query, confirmed by
    the search action, while the text field only changes the shown text. */
module LegacyGamesSearch {
  import opened Text
  import opened SearchPaging

  datatype State = State(queryText: string, searchQuery: string, paging: Paging)

  datatype Step = Step(state: State, searchLaunched: bool)

  function QueryChanged(s: State, text: string): (r: State)
    ensures r.queryText == text && r.searchQuery == s.searchQuery && r.paging == s.paging
  {
    s.(queryText := text)
  }

  /** `onSearchActionRequested`, also run on creation with the saved query
      (or the empty one). */
  function SearchActionRequested(s: State, query: string, firstPage: Pagination): (r: Step)
    ensures r.searchLaunched <==> query != "" && query != s.searchQuery
    ensures !r.searchLaunched ==> r.state == s
    ensures r.searchLaunched ==>
              r.state.searchQuery == query && r.state.paging == Reset(s.paging, firstPage) &&
              r.state.queryText == s.queryText
  {
    if query == "" || s.searchQuery == query then Step(s, false)
    else Step(s.(searchQuery := query, paging := Reset(s.paging, firstPage)), true)
  }

  /** A page of results as this view model emits it: the games, no longer
      loading, under whatever title is on screen. Unlike the current view
      model, the title is not recomputed for the query. */
  function PageEmission(p: Paging, games: seq<GameItem>): (ui: GamesUi)
    ensures ui.games == games && !ui.isLoading
    ensures ui.infoTitle == p.gamesUi.infoTitle
  {
    p.gamesUi.(isLoading := false, games := games)
  }

  /** The screen when this view model is created: no query, so the default
      prompt. */
  function Created(firstPage: Pagination): (s: State)
    ensures s.searchQuery == "" && s.paging.gamesUi.infoTitle == DefaultTitle
  {
    State("", "", Paging(firstPage, [], false, EmptyGamesUi("")))
  }

  /** Created afresh and asked for a non-blank query whose first page is
      empty, the screen keeps the default prompt from creation, where the
      current view model shows "nothing found" for the query. */
  lemma EmptyFirstPageKeepsDefaultTitle(firstPage: Pagination, query: string)
    requires query != "" && !IsBlank(query) && firstPage.limit != 0
    ensures var launched := SearchActionRequested(Created(firstPage), query, firstPage);
      var p := launched.state.paging;
      var loading := Collect(p, StartEmission(p, query));
      launched.searchLaunched &&
      Collect(loading, PageEmission(loading, [])).gamesUi == GamesUi(false, DefaultTitle, []) &&
      SearchPaging.PageEmission(loading, query, []).infoTitle == NothingFoundTitle(query)
  {
  }

  /** Asking twice for the same query searches once. */
  lemma RepeatedActionIsIgnored(s: State, query: string, firstPage: Pagination)
    requires query != ""
    ensures var once := SearchActionRequested(s, query, firstPage).state;
      SearchActionRequested(once, query, firstPage) == Step(once, false)
  {
  }
}

/** The app module's search view model: queries arrive debounced, pages are
    appended without de-duplication, and the screen state is one of three
    kinds. */
module AppGamesSearch {
  import opened Results
  import opened Text
  import SearchPaging

  type GameItem = SearchPaging.GameItem
  type Pagination = SearchPaging.Pagination

  datatype UiState = Empty(query: string) | Loading | Result(items: seq<GameItem>)

  datatype State = State(
    searchQuery: string,
    pagination: Pagination,
    combinedPageResults: Option<seq<GameItem>>,
    hasMoreDataToLoad: bool,
    ui: UiState)

  /** A query that made it through the debounce: it becomes the search
      query, paging starts over and a search is launched. */
  function QuerySettled(s: State, query: string, firstPage: Pagination): (r: State)
    ensures r.searchQuery == query && r.pagination == firstPage && r.combinedPageResults.None?
    ensures r.hasMoreDataToLoad == s.hasMoreDataToLoad && r.ui == s.ui
  {
    s.(searchQuery := query, pagination := firstPage, combinedPageResults := None)
  }

  /** What a launched search emits before its page arrives: just the empty
      state for a blank query; otherwise the empty state for a new search
      (not for a further page) followed by the loading state. */
  function StartEmissions(s: State): (r: seq<UiState>)
    ensures IsBlank(s.searchQuery) ==> r == [Empty(s.searchQuery)]
    ensures !IsBlank(s.searchQuery) ==> |r| > 0 && r[|r| - 1] == Loading
    ensures !IsBlank(s.searchQuery) ==> (|r| == 2 <==> s.combinedPageResults.None?)
  {
    if IsBlank(s.searchQuery) then [Empty(s.searchQuery)]
    else if s.combinedPageResults.None? then [Empty(s.searchQuery), Loading]
    else [Loading]
  }

  /** `mapToGamesUiState`: an empty page is the empty state. */
  function PageState(s: State, games: seq<GameItem>): (r: UiState)
    ensures r.Empty? <==> games == []
    ensures r.Result? ==> r.items == games
  {
    if games == [] then Empty(s.searchQuery) else Result(games)
  }

  /** `onError`: a failed search dispatches a long toast with the error
      mapper's message and emits the empty state for the search query. */
  function SearchFailed(s: State, message: string): (r: (UiState, SearchPaging.Command))
    ensures r.0.Empty? && r.0.query == s.searchQuery
    ensures r.1 == SearchPaging.ShowLongToast(message)
  {
    (Empty(s.searchQuery), SearchPaging.ShowLongToast(message))
  }

  /** `combinePageResults`: a page of results is appended to the results
      collected so far, duplicates included. */
  function CombinePageResults(s: State, ui: UiState): (r: UiState)
    ensures !ui.Result? || s.combinedPageResults.None? ==> r == ui
    ensures ui.Result? && s.combinedPageResults.Some? ==> r == Result(s.combinedPageResults.value + ui.items)
  {
    if !ui.Result? || s.combinedPageResults.None? then ui
    else Result(s.combinedPageResults.value + ui.items)
  }

  /** `collectState` after combining: a result is remembered and sets
      "has more"; every value is shown. */
  function Collect(s: State, emitted: UiState): (r: State)
    requires s.pagination.limit != 0
    ensures r.ui == CombinePageResults(s, emitted)
    ensures r.ui.Result? ==> r.combinedPageResults == Some(r.ui.items) &&
                             r.hasMoreDataToLoad == (|r.ui.items| % s.pagination.limit == 0)
    ensures !r.ui.Result? ==> r.combinedPageResults == s.combinedPageResults &&
                              r.hasMoreDataToLoad == s.hasMoreDataToLoad
  {
    var combined := CombinePageResults(s, emitted);
    if combined.Result? then
      s.(ui := combined, combinedPageResults := Some(combined.items),
         hasMoreDataToLoad := |combined.items| % s.pagination.limit == 0)
    else s.(ui := combined)
  }

  /** `loadNextPageOfData`. */
  function LoadNextPage(s: State, nextPage: Pagination -> Pagination): (r: (State, bool))
    ensures r.1 <==> s.hasMoreDataToLoad
    ensures r.1 ==> r.0 == s.(pagination := nextPage(s.pagination))
    ensures !r.1 ==> r.0 == s
  {
    if !s.hasMoreDataToLoad then (s, false) else (s.(pagination := nextPage(s.pagination)), true)
  }

  /** Pages accumulate in order: after a second page the shown results are
      the first page followed by the second. */
  lemma PagesAccumulate(s: State, first: seq<GameItem>, second: seq<GameItem>, next: Pagination -> Pagination)
    requires s.pagination.limit != 0 && next(s.pagination).limit != 0
    requires first != [] && second != []
    requires s.combinedPageResults.None?
    ensures var afterFirst := Collect(s, PageState(s, first));
      var paged := afterFirst.(pagination := next(afterFirst.pagination));
      Collect(paged, PageState(paged, second)).ui == Result(first + second)
  {
  }

  /** A failed search shows the empty state, and the results collected so
      far and "has more" are kept for the next page. */
  lemma FailureShowsEmptyStateKeepsResults(s: State, message: string)
    requires s.pagination.limit != 0
    ensures var after := Collect(s, SearchFailed(s, message).0);
      after.ui == Empty(s.searchQuery) &&
      after.combinedPageResults == s.combinedPageResults &&
      after.hasMoreDataToLoad == s.hasMoreDataToLoad &&
      after.pagination == s.pagination
  {
  }

  /** An empty further page replaces the shown results with the empty
      state, while the collected results are kept for later pages. */
  lemma EmptyPageShowsEmptyState(s: State)
    requires s.pagination.limit != 0 && s.combinedPageResults.Some?
    ensures Collect(s, PageState(s, [])).ui == Empty(s.searchQuery)
    ensures Collect(s, PageState(s, [])).combinedPageResults == s.combinedPageResults
  {
  }
}
