/** The in-memory games cache: every query filters the cached games, sorts
    the survivors with a stable sort, and hands back one page of them. */
module GamesCache {
  import opened Results
  import opened Text
  import opened Lists
  import opened ClauseMeaning
  import IgdbQueries

  /** The part of a cached game the queries read. Popularity is a double in
      the program; only its order matters here, so it is an integer. */
  datatype CachedGame = CachedGame(
    id: int,
    name: string,
    popularity: Option<int>,
    releaseDate: Option<int>,
    hypeCount: Option<int>)

  /** How the cache utilities' `take(offset, limit)` places its page in a
      list of `n` elements: a start and an end position. The helper is not
      part of this model; whatever it picks, the page is a contiguous run
      of the list, because `Take` clamps the positions. */
  type Window = (int, int, nat) -> (nat, nat)

  /** The positions `window` picks, clamped to the list. */
  function Page(window: Window, offset: int, limit: int, n: nat): (b: (nat, nat))
    ensures b.0 <= b.1 <= n
  {
    var (a, z) := window(offset, limit, n);
    var start := if a <= n then a else n;
    (start, if z < start then start else if z <= n then z else n)
  }

  /** `r` is a contiguous run of `s`. */
  predicate IsSliceOf<T(==)>(r: seq<T>, s: seq<T>) {
    exists i, j :: 0 <= i <= j <= |s| && r == s[i..j]
  }

  /** A window that starts at the top and reaches past the end. */
  predicate Covers(window: Window, offset: int, limit: int, n: nat) {
    window(offset, limit, n).0 == 0 && window(offset, limit, n).1 >= n
  }

  function Take<T(==)>(s: seq<T>, offset: int, limit: int, window: Window): (r: seq<T>)
    ensures IsSliceOf(r, s)
    ensures Covers(window, offset, limit, |s|) ==> r == s
  {
    var b := Page(window, offset, limit, |s|);
    s[b.0..b.1]
  }

  // The filters, one per query.

  predicate MatchesSearch(g: CachedGame, searchQuery: string) {
    Contains(Lower(g.name), searchQuery)
  }

  predicate IsPopular(g: CachedGame, ts: IgdbQueries.Timestamps, minPopularity: int) {
    g.popularity.Some? && g.popularity.value > minPopularity &&
    g.releaseDate.Some? && g.releaseDate.value > ts.popularMin
  }

  predicate IsRecentlyReleased(g: CachedGame, ts: IgdbQueries.Timestamps) {
    g.releaseDate.Some? &&
    g.releaseDate.value > ts.recentlyReleasedMin &&
    g.releaseDate.value < ts.recentlyReleasedMax
  }

  predicate IsComingSoon(g: CachedGame, ts: IgdbQueries.Timestamps) {
    g.releaseDate.Some? && g.releaseDate.value > ts.comingSoonMin
  }

  predicate IsMostAnticipated(g: CachedGame, ts: IgdbQueries.Timestamps) {
    g.releaseDate.Some? && g.releaseDate.value > ts.mostAnticipatedMin && g.hypeCount.Some?
  }

  // Sort keys. Each filter has already dropped the games whose key is
  // null, so the fallback value is never compared.

  function Value(x: Option<int>): int {
    if x.Some? then x.value else 0
  }

  function ByPopularityDescending(g: CachedGame): int { -Value(g.popularity) }
  function ByReleaseDateDescending(g: CachedGame): int { -Value(g.releaseDate) }
  function ByReleaseDate(g: CachedGame): int { Value(g.releaseDate) }
  function ByHypeCountDescending(g: CachedGame): int { -Value(g.hypeCount) }

  /** Exactly the cached games that pass `p`, as many times as they occur. */
  ghost predicate Selects(r: seq<CachedGame>, cache: seq<CachedGame>, p: CachedGame -> bool) {
    forall g :: multiset(r)[g] == if p(g) then multiset(cache)[g] else 0
  }

  function Selected(cache: seq<CachedGame>, p: CachedGame -> bool, key: CachedGame -> int): (r: seq<CachedGame>)
    ensures Selects(r, cache, p)
    ensures |r| == |Filter(cache, p)|
    ensures SortedBy(r, key)
    ensures forall i :: 0 <= i < |r| ==> p(r[i]) && r[i] in cache
  {
    var f := Filter(cache, p);
    var r := SortBy(f, key);
    assert Selects(r, cache, p) by {
      forall g ensures multiset(r)[g] == if p(g) then multiset(cache)[g] else 0 {
        FilterCounts(cache, p, g);
      }
    }
    assert forall i :: 0 <= i < |r| ==> p(r[i]) && r[i] in cache by {
      forall i | 0 <= i < |r| ensures p(r[i]) && r[i] in cache {
        assert r[i] in multiset(f);
        FilterMembers(cache, p, r[i]);
      }
    }
    r
  }

  /** A page of a selection keeps the selection's guarantees. */
  lemma PageOfSelected(cache: seq<CachedGame>, p: CachedGame -> bool, key: CachedGame -> int,
                       offset: int, limit: int, window: Window)
    ensures var r := Take(Selected(cache, p, key), offset, limit, window);
            (forall i :: 0 <= i < |r| ==> r[i] in cache && p(r[i])) && SortedBy(r, key)
  {
    var sorted := Selected(cache, p, key);
    var b := Page(window, offset, limit, |sorted|);
    var r := sorted[b.0..b.1];
    assert r == Take(sorted, offset, limit, window);
    forall i | 0 <= i < |r| ensures r[i] in cache && p(r[i]) {
      assert r[i] == sorted[b.0 + i];
    }
    forall i, j | 0 <= i < j < |r| ensures key(r[i]) <= key(r[j]) {
      assert r[i] == sorted[b.0 + i] && r[j] == sorted[b.0 + j];
    }
  }

  /** `searchGames`: the games whose lower-cased name contains the query,
      in cache order. The query itself is not lower-cased. */
  function SearchGames(cache: seq<CachedGame>, searchQuery: string, offset: int, limit: int, window: Window): (r: seq<CachedGame>)
    ensures forall g :: g in r ==> g in cache && MatchesSearch(g, searchQuery)
    ensures IsSliceOf(r, Filter(cache, (g: CachedGame) => MatchesSearch(g, searchQuery)))
  {
    var f := Filter(cache, (g: CachedGame) => MatchesSearch(g, searchQuery));
    var r := Take(f, offset, limit, window);
    assert forall g :: g in r ==> g in cache && MatchesSearch(g, searchQuery) by {
      forall g | g in r ensures g in cache && MatchesSearch(g, searchQuery) {
        FilterMembers(cache, (g: CachedGame) => MatchesSearch(g, searchQuery), g);
      }
    }
    r
  }

  /** `getPopularGames`: popular games, most popular first. */
  function PopularGames(cache: seq<CachedGame>, ts: IgdbQueries.Timestamps, minPopularity: int,
                        offset: int, limit: int, window: Window): (r: seq<CachedGame>)
    ensures forall i :: 0 <= i < |r| ==> r[i] in cache && IsPopular(r[i], ts, minPopularity)
    ensures forall i, j :: 0 <= i < j < |r| ==> Value(r[i].popularity) >= Value(r[j].popularity)
    ensures IsSliceOf(r, Selected(cache, (g: CachedGame) => IsPopular(g, ts, minPopularity), ByPopularityDescending))
  {
    var p := (g: CachedGame) => IsPopular(g, ts, minPopularity);
    PageOfSelected(cache, p, ByPopularityDescending, offset, limit, window);
    Take(Selected(cache, p, ByPopularityDescending), offset, limit, window)
  }

  /** `getRecentlyReleasedGames`: released inside the window, newest first. */
  function RecentlyReleasedGames(cache: seq<CachedGame>, ts: IgdbQueries.Timestamps,
                                 offset: int, limit: int, window: Window): (r: seq<CachedGame>)
    ensures forall i :: 0 <= i < |r| ==> r[i] in cache && IsRecentlyReleased(r[i], ts)
    ensures forall i, j :: 0 <= i < j < |r| ==> Value(r[i].releaseDate) >= Value(r[j].releaseDate)
    ensures IsSliceOf(r, Selected(cache, (g: CachedGame) => IsRecentlyReleased(g, ts), ByReleaseDateDescending))
  {
    var p := (g: CachedGame) => IsRecentlyReleased(g, ts);
    PageOfSelected(cache, p, ByReleaseDateDescending, offset, limit, window);
    Take(Selected(cache, p, ByReleaseDateDescending), offset, limit, window)
  }

  /** `getComingSoonGames`: released after the bound, soonest first. */
  function ComingSoonGames(cache: seq<CachedGame>, ts: IgdbQueries.Timestamps,
                           offset: int, limit: int, window: Window): (r: seq<CachedGame>)
    ensures forall i :: 0 <= i < |r| ==> r[i] in cache && IsComingSoon(r[i], ts)
    ensures forall i, j :: 0 <= i < j < |r| ==> Value(r[i].releaseDate) <= Value(r[j].releaseDate)
    ensures IsSliceOf(r, Selected(cache, (g: CachedGame) => IsComingSoon(g, ts), ByReleaseDate))
  {
    var p := (g: CachedGame) => IsComingSoon(g, ts);
    PageOfSelected(cache, p, ByReleaseDate, offset, limit, window);
    Take(Selected(cache, p, ByReleaseDate), offset, limit, window)
  }

  /** `getMostAnticipatedGames`: the most hyped first. */
  function MostAnticipatedGames(cache: seq<CachedGame>, ts: IgdbQueries.Timestamps,
                                offset: int, limit: int, window: Window): (r: seq<CachedGame>)
    ensures forall i :: 0 <= i < |r| ==> r[i] in cache && IsMostAnticipated(r[i], ts)
    ensures forall i, j :: 0 <= i < j < |r| ==> Value(r[i].hypeCount) >= Value(r[j].hypeCount)
    ensures IsSliceOf(r, Selected(cache, (g: CachedGame) => IsMostAnticipated(g, ts), ByHypeCountDescending))
  {
    var p := (g: CachedGame) => IsMostAnticipated(g, ts);
    PageOfSelected(cache, p, ByHypeCountDescending, offset, limit, window);
    Take(Selected(cache, p, ByHypeCountDescending), offset, limit, window)
  }

  /** `getGames`, behind `getCompanyGames` (the company's developed games)
      and `getSimilarGames` (the game's similar games): the cached games
      whose id is asked for, in cache order. */
  function GamesWithIds(cache: seq<CachedGame>, ids: seq<int>, offset: int, limit: int, window: Window): (r: seq<CachedGame>)
    ensures forall g :: g in r ==> g in cache && g.id in ids
    ensures IsSliceOf(r, Filter(cache, (g: CachedGame) => g.id in ids))
  {
    var f := Filter(cache, (g: CachedGame) => g.id in ids);
    var r := Take(f, offset, limit, window);
    assert forall g :: g in r ==> g in cache && g.id in ids by {
      forall g | g in r ensures g in cache && g.id in ids {
        FilterMembers(cache, (g: CachedGame) => g.id in ids, g);
      }
    }
    r
  }

  /** With a page covering everything, the search returns every cached
      game whose lower-cased name contains the query, in cache order. */
  lemma SearchGamesComplete(cache: seq<CachedGame>, searchQuery: string, offset: int, limit: int, window: Window)
    requires Covers(window, offset, limit, |Filter(cache, (g: CachedGame) => MatchesSearch(g, searchQuery))|)
    ensures SearchGames(cache, searchQuery, offset, limit, window) == Filter(cache, (g: CachedGame) => MatchesSearch(g, searchQuery))
  {
  }

  /** With a page covering everything, the popular-games query returns
      every popular cached game, each as often as it is cached. */
  lemma PopularGamesComplete(cache: seq<CachedGame>, ts: IgdbQueries.Timestamps, minPopularity: int,
                             offset: int, limit: int, window: Window)
    requires Covers(window, offset, limit, |Filter(cache, (g: CachedGame) => IsPopular(g, ts, minPopularity))|)
    ensures PopularGames(cache, ts, minPopularity, offset, limit, window)
         == Selected(cache, (g: CachedGame) => IsPopular(g, ts, minPopularity), ByPopularityDescending)
    ensures Selects(PopularGames(cache, ts, minPopularity, offset, limit, window), cache,
                    (g: CachedGame) => IsPopular(g, ts, minPopularity))
  {
  }

  lemma RecentlyReleasedGamesComplete(cache: seq<CachedGame>, ts: IgdbQueries.Timestamps,
                                      offset: int, limit: int, window: Window)
    requires Covers(window, offset, limit, |Filter(cache, (g: CachedGame) => IsRecentlyReleased(g, ts))|)
    ensures RecentlyReleasedGames(cache, ts, offset, limit, window)
         == Selected(cache, (g: CachedGame) => IsRecentlyReleased(g, ts), ByReleaseDateDescending)
    ensures Selects(RecentlyReleasedGames(cache, ts, offset, limit, window), cache,
                    (g: CachedGame) => IsRecentlyReleased(g, ts))
  {
  }

  lemma ComingSoonGamesComplete(cache: seq<CachedGame>, ts: IgdbQueries.Timestamps,
                                offset: int, limit: int, window: Window)
    requires Covers(window, offset, limit, |Filter(cache, (g: CachedGame) => IsComingSoon(g, ts))|)
    ensures ComingSoonGames(cache, ts, offset, limit, window)
         == Selected(cache, (g: CachedGame) => IsComingSoon(g, ts), ByReleaseDate)
    ensures Selects(ComingSoonGames(cache, ts, offset, limit, window), cache,
                    (g: CachedGame) => IsComingSoon(g, ts))
  {
  }

  lemma MostAnticipatedGamesComplete(cache: seq<CachedGame>, ts: IgdbQueries.Timestamps,
                                     offset: int, limit: int, window: Window)
    requires Covers(window, offset, limit, |Filter(cache, (g: CachedGame) => IsMostAnticipated(g, ts))|)
    ensures MostAnticipatedGames(cache, ts, offset, limit, window)
         == Selected(cache, (g: CachedGame) => IsMostAnticipated(g, ts), ByHypeCountDescending)
    ensures Selects(MostAnticipatedGames(cache, ts, offset, limit, window), cache,
                    (g: CachedGame) => IsMostAnticipated(g, ts))
  {
  }

  /** With a page covering everything, the lookup returns every cached
      game with a requested id, in cache order. */
  lemma GamesWithIdsComplete(cache: seq<CachedGame>, ids: seq<int>, offset: int, limit: int, window: Window)
    requires Covers(window, offset, limit, |Filter(cache, (g: CachedGame) => g.id in ids)|)
    ensures GamesWithIds(cache, ids, offset, limit, window) == Filter(cache, (g: CachedGame) => g.id in ids)
  {
  }

  /** A query with an upper-case letter occurs nowhere in lower-cased text. */
  lemma UpperNotInLower(name: string, searchQuery: string, k: nat)
    requires k < |searchQuery| && IsUpper(searchQuery[k])
    ensures !Contains(Lower(name), searchQuery)
  {
    var lower := Lower(name);
    LowerHasNoUpper(name);
    forall i | 0 <= i <= |lower| - |searchQuery| ensures !OccursAt(lower, searchQuery, i) {
      assert !IsUpper(lower[i + k]);
      assert lower[i..i + |searchQuery|][k] == lower[i + k];
    }
  }

  /** The search compares the lower-cased name with the query as given, so
      a query holding an upper-case letter never matches anything. */
  lemma UpperCaseQueryFindsNothing(cache: seq<CachedGame>, searchQuery: string, offset: int, limit: int, window: Window, k: nat)
    requires k < |searchQuery| && IsUpper(searchQuery[k])
    ensures SearchGames(cache, searchQuery, offset, limit, window) == []
  {
    forall g: CachedGame ensures !MatchesSearch(g, searchQuery) {
      UpperNotInLower(g.name, searchQuery, k);
    }
    var r := SearchGames(cache, searchQuery, offset, limit, window);
    HeadIsMember(r);
  }

  lemma HeadIsMember<T>(s: seq<T>)
    ensures |s| > 0 ==> s[0] in s
  {
  }

  /** The row a game presents to a where clause. */
  function RowOf(g: CachedGame): Row {
    (field: string) =>
      if field == IgdbQueries.ID then Some(g.id)
      else if field == IgdbQueries.RELEASE_DATE then g.releaseDate
      else if field == IgdbQueries.HYPE_COUNT then g.hypeCount
      else None
  }

  /** The cache answers the recently-released query with the same games
      the remote where clause selects. */
  lemma RecentlyReleasedAgreesWithQuery(g: CachedGame, ts: IgdbQueries.Timestamps, fields: string, offset: int, limit: int)
    ensures IsRecentlyReleased(g, ts)
        <==> Holds(IgdbQueries.RecentlyReleasedQuery(fields, ts, offset, limit).where.value, RowOf(g)) == Some(true)
  {
    IgdbQueries.RecentlyReleasedQueryMeaning(fields, ts, offset, limit, RowOf(g));
  }

  lemma ComingSoonAgreesWithQuery(g: CachedGame, ts: IgdbQueries.Timestamps, fields: string, offset: int, limit: int)
    ensures IsComingSoon(g, ts)
        <==> Holds(IgdbQueries.ComingSoonQuery(fields, ts, offset, limit).where.value, RowOf(g)) == Some(true)
  {
    IgdbQueries.ComingSoonQueryMeaning(fields, ts, offset, limit, RowOf(g));
  }

  lemma MostAnticipatedAgreesWithQuery(g: CachedGame, ts: IgdbQueries.Timestamps, fields: string, offset: int, limit: int)
    ensures IsMostAnticipated(g, ts)
        <==> Holds(IgdbQueries.MostAnticipatedQuery(fields, ts, offset, limit).where.value, RowOf(g)) == Some(true)
  {
    IgdbQueries.MostAnticipatedQueryMeaning(fields, ts, offset, limit, RowOf(g));
  }

  lemma GamesWithIdsAgreesWithQuery(g: CachedGame, ids: seq<int>, fields: string, offset: int, limit: int)
    ensures g.id in ids
        <==> Holds(IgdbQueries.GamesByIdQuery(fields, ids, offset, limit).where.value, RowOf(g)) == Some(true)
  {
    IgdbQueries.GamesByIdQueryMeaning(fields, ids, offset, limit, RowOf(g));
  }
}
