# Gamedge core, modelled in Dafny

Gamedge is an Android client for the IGDB games database. This project
models the decision-making core of the app in Dafny and proves properties
about it. Each part below is one Dafny module:

- **IGDB query building.** The Apicalypse where-clause builder
  (`WhereClause`, with its meaning over a row in `ClauseMeaning`). The full
  query text (`ApicalypseQuery`). The six game queries the app sends
  (`IgdbQueries`): search, popular, recently released, coming soon, most
  anticipated, and by id.
- **Date formatting.** The relative date formatter ("in 2 years", "15 days
  ago"), in `RelativeDate`. The release-date formatter that picks a game's
  earliest usable release date and renders it by category, in
  `ReleaseDates`.
- **The refresh throttler** that allows a category refresh only after a
  timeout (`RefreshThrottle`).
- **The in-memory games cache** and its filtered, ordered and paged
  queries (`GamesCache`).
- **The image-loading configuration builder** and its validation
  (`ImageConfig`).
- **The chip-flow widget's layout** and its tap lookup (`ChipFlow`).
- **The games-search view models.** All three copies are modelled:
  - the current one (`GamesSearch`, paging in `SearchPaging`);
  - the older one (`LegacyGamesSearch`);
  - the app module's one (`AppGamesSearch`).

  The two feature-search copies share the loading, failure, combining,
  collecting, resetting and load-more rules, and both deduplicate appended
  pages by id (`DistinctBy`). They differ in how a page is shown: the
  current copy recomputes the title for the query, while the older copy
  keeps the title already on screen. The app module's copy appends pages
  as they come.
- **The game-info company list factory**, in both copies
  (`CompanyModels`).
- **The entity mappers** between the api, data, database and domain
  layers (`Entities`, `GameConversion`, `DbGameMapper`,
  `DatabaseGameMapper`, `IgdbGameMapper`, `ApiGameMapper`,
  `LegacyConversion`, `IgdbMappings`, `UseCaseGameMapper`).
- **Navigation screens and their route lookup** (`AppScreens`,
  `DashboardScreens`).
- **The hilt-binder annotation processor's contribution-type detection**
  (`ContributionTypes`).

Shared helpers live in `Results`, `Lists` and `Text`. `Results` holds
`Result`/`Option` and the "map all or fail" helper. `Lists` holds filter,
stable sort and map. `Text` holds join, decimal rendering, ASCII lower case
and substring search.

Errors the source raises with `error(...)`, `require`, `checkNotNull` or a
failed `valueOf` are `Err` values of a `Result`. Android resources,
formatters, clocks and other collaborators are function parameters.

## Model

| member | source | states |
|---|---|---|
| WhereClause.ListText | igdb-apicalypse/src/main/java/com/paulrybitskyi/gamedge/igdb/apicalypse/querybuilder/whereclause/WhereClauseBuilderImpl.kt:90-117 | A list condition brackets its values in the check's delimiters. An empty list gives just the brackets. A single value sits alone between them. Two or more values appear in order, joined by ", ". |
| WhereClause.ThreeValuesText | igdb-apicalypse/src/main/java/com/paulrybitskyi/gamedge/igdb/apicalypse/querybuilder/whereclause/WhereClauseBuilderImpl.kt:102-105 | Three ids render as "id = (1, 2, 3)". |
| WhereClause.BuildAppend | igdb-apicalypse/src/main/java/com/paulrybitskyi/gamedge/igdb/apicalypse/querybuilder/whereclause/WhereClauseBuilderImpl.kt:27-139 | The builder only appends. The clause for two call sequences is the first's text followed by the second's. |
| WhereClause.AndOrJoin | igdb-apicalypse/src/test/java/com/paulrybitskyi/gamedge/igdb/apicalypse/ApicalypseQueryBuilderImplTest.kt:339-374 | `and` joins two conditions with an ampersand and `or` with a vertical bar, each between spaces, as the tests expect. |
| WhereClause.CompareUnambiguous | igdb-apicalypse/src/main/java/com/paulrybitskyi/gamedge/igdb/apicalypse/querybuilder/whereclause/WhereClauseBuilderImpl.kt:54-87 | Two comparisons on the same field render the same text exactly when their operator and value agree, so the text can be read back. |
| WhereClause.ListCheckUnambiguous | igdb-apicalypse/src/main/java/com/paulrybitskyi/gamedge/igdb/apicalypse/querybuilder/whereclause/WhereClauseBuilderImpl.kt:90-117 | The text of a list condition determines which of the list checks was used. |
| ClauseMeaning.Conjunction | igdb-apicalypse/src/main/java/com/paulrybitskyi/gamedge/igdb/apicalypse/querybuilder/whereclause/WhereClauseBuilderImpl.kt:120-134 | A condition followed by `and` of a second one holds on a row exactly when both hold. |
| ApicalypseQuery.Section | igdb-apicalypse/src/test/java/com/paulrybitskyi/gamedge/igdb/apicalypse/ApicalypseQueryBuilderImplTest.kt:38-65 | An unset section contributes nothing. A set section is non-empty and terminated by ';'. |
| ApicalypseQuery.Render | igdb-apicalypse/src/test/java/com/paulrybitskyi/gamedge/igdb/apicalypse/ApicalypseQueryBuilderImplTest.kt:38-65 | A query with no section set renders as the empty string. |
| ApicalypseQuery.RenderEndsWithSemicolon | igdb-apicalypse/src/test/java/com/paulrybitskyi/gamedge/igdb/apicalypse/ApicalypseQueryBuilderImplTest.kt:377-400 | Any query with at least one section set ends with ';'. |
| ApicalypseQuery.SelectQueryText | igdb-apicalypse/src/test/java/com/paulrybitskyi/gamedge/igdb/apicalypse/ApicalypseQueryBuilderImplTest.kt:377-400 | A query with fields, where, offset, limit and sort set renders its sections in that order, each terminated by ';'. |
| IgdbQueries.SearchQuery | igdb-api/src/main/java/com/paulrybitskyi/gamedge/igdb/api/games/IgdbApiQueryFactory.kt:62-69 | The search query carries the search text, the game fields, offset and limit, with no where clause and no sort. |
| IgdbQueries.PopularQuery | igdb-api/src/main/java/com/paulrybitskyi/gamedge/igdb/api/games/IgdbApiQueryFactory.kt:72-85 | The popular query has a where clause and sorts by total rating, descending. |
| IgdbQueries.RecentlyReleasedQuery | igdb-api/src/main/java/com/paulrybitskyi/gamedge/igdb/api/games/IgdbApiQueryFactory.kt:88-102 | The recently-released query has a where clause and sorts by release date, descending. |
| IgdbQueries.ComingSoonQuery | igdb-api/src/main/java/com/paulrybitskyi/gamedge/igdb/api/games/IgdbApiQueryFactory.kt:105-115 | The coming-soon query has a where clause and sorts by release date, ascending. |
| IgdbQueries.MostAnticipatedQuery | igdb-api/src/main/java/com/paulrybitskyi/gamedge/igdb/api/games/IgdbApiQueryFactory.kt:118-131 | The most-anticipated query has a where clause and sorts by hype count, descending. |
| IgdbQueries.Stringified | igdb-api/src/main/java/com/paulrybitskyi/gamedge/igdb/api/games/IgdbApiQueryFactory.kt:134-143 | Each id becomes its decimal text, in order. |
| IgdbQueries.GamesByIdQuery | igdb-api/src/main/java/com/paulrybitskyi/gamedge/igdb/api/games/IgdbApiQueryFactory.kt:134-143 | The by-id query's only condition is "id contains any of" the ids' decimal texts. |
| IgdbQueries.PopularQueryMeaning | igdb-api/src/main/java/com/paulrybitskyi/gamedge/igdb/api/games/querybuilder/IgdbApiQueryBuilderImpl.kt:54-67 | The popular where clause selects exactly the rated games released after the popular-games bound. |
| IgdbQueries.RecentlyReleasedQueryMeaning | igdb-api/src/main/java/com/paulrybitskyi/gamedge/igdb/api/games/querybuilder/IgdbApiQueryBuilderImpl.kt:70-84 | The recently-released where clause selects exactly the games whose release date lies strictly between the two bounds. |
| IgdbQueries.ComingSoonQueryMeaning | igdb-api/src/main/java/com/paulrybitskyi/gamedge/igdb/api/games/querybuilder/IgdbApiQueryBuilderImpl.kt:87-97 | The coming-soon where clause selects exactly the games released after the bound. |
| IgdbQueries.MostAnticipatedQueryMeaning | igdb-api/src/main/java/com/paulrybitskyi/gamedge/igdb/api/games/querybuilder/IgdbApiQueryBuilderImpl.kt:100-113 | The most-anticipated where clause selects exactly the games released after the bound that have a hype count. |
| IgdbQueries.GamesByIdQueryMeaning | igdb-api/src/main/java/com/paulrybitskyi/gamedge/igdb/api/games/querybuilder/IgdbApiQueryBuilderImpl.kt:116-125 | The by-id where clause selects exactly the games whose id is among the requested ids. Decimal rendering is injective, so no id is confused with another. |
| IgdbQueries.PopularQueryText | igdb-api/src/main/java/com/paulrybitskyi/gamedge/igdb/api/games/IgdbApiQueryFactory.kt:72-85 | The full text of the popular query, section by section. |
| RelativeDate.Position | core/src/main/java/com/paulrybitskyi/gamedge/core/formatters/RelativeDateFormatter.kt:52-72 | Every unit appears in the fixed order years, months, days, hours, minutes, seconds. |
| RelativeDate.ToInt | core/src/main/java/com/paulrybitskyi/gamedge/core/formatters/RelativeDateFormatter.kt:52-95 | Kotlin's `Long.toInt()`: the 32-bit value congruent to the count. Counts already in range are unchanged. |
| RelativeDate.Counts | core/src/main/java/com/paulrybitskyi/gamedge/core/formatters/RelativeDateFormatter.kt:52-72 | One truncated count per unit, in the unit order. |
| RelativeDate.FirstPositive | core/src/main/java/com/paulrybitskyi/gamedge/core/formatters/RelativeDateFormatter.kt:52-72 | Finds the first positive count at or after a position. When there is one, every earlier count is zero or negative. |
| RelativeDate.Pick | core/src/main/java/com/paulrybitskyi/gamedge/core/formatters/RelativeDateFormatter.kt:52-95 | Fails exactly when no count is positive. Otherwise gives a positive quantity of a unit whose count it is. |
| RelativeDate.FormatRelativeDate | core/src/main/java/com/paulrybitskyi/gamedge/core/formatters/RelativeDateFormatter.kt:40-49 | The direction is future exactly when now is before the date. The call fails exactly when no unit counts positively between the two instants. |
| RelativeDate.NoPositiveCount | core/src/main/java/com/paulrybitskyi/gamedge/core/formatters/RelativeDateFormatter.kt:71-71 | The "cannot format" error is reached exactly when every unit's truncated count is non-positive. |
| RelativeDate.LargestPositiveUnit | core/src/main/java/com/paulrybitskyi/gamedge/core/formatters/RelativeDateFormatter.kt:52-95 | The unit reported is the largest one with a positive count, and the quantity is that count. |
| RelativeDate.SameInstantFails | core/src/main/java/com/paulrybitskyi/gamedge/core/formatters/RelativeDateFormatter.kt:40-49 | A date equal to now falls to the past branch and fails. |
| RelativeDate.PastMirrorsFuture | core/src/main/java/com/paulrybitskyi/gamedge/core/formatters/RelativeDateFormatter.kt:75-95 | The past branch equals the future branch with the instants swapped and the direction flipped. |
| RelativeDate.TwoYearsAhead | core/src/test/java/com/paulrybitskyi/gamedge/core/RelativeDateFormatterImplTest.kt:53-61 | Two years ahead formats as a 2-year future quantity. |
| RelativeDate.FifteenDaysAgo | core/src/test/java/com/paulrybitskyi/gamedge/core/RelativeDateFormatterImplTest.kt:149-157 | Fifteen days back formats as a 15-day past quantity. |
| ReleaseDates.FindFirstReleaseDate | core/src/main/java/com/paulrybitskyi/gamedge/core/formatters/GameReleaseDateFormatter.kt:67-76 | Gives none exactly when no date is usable, meaning it has a known category, a date and a year. Otherwise gives a usable date from the list with the least timestamp among the usable ones. |
| ReleaseDates.QuarterString | core/src/main/java/com/paulrybitskyi/gamedge/core/formatters/GameReleaseDateFormatter.kt:117-128 | Defined exactly for the four quarter categories. Any other category is an "unknown category" error. |
| ReleaseDates.QuarterStringsDistinct | core/src/main/java/com/paulrybitskyi/gamedge/core/formatters/GameReleaseDateFormatter.kt:117-128 | With four distinct quarter strings, two quarter categories give the same string only if they are the same quarter. |
| ReleaseDates.FormatDate | core/src/main/java/com/paulrybitskyi/gamedge/core/formatters/GameReleaseDateFormatter.kt:52-115 | By category: a full date is formatted with the relative date in brackets, a month date dayless, a year alone, a quarter as year plus quarter. Unknown and to-be-decided categories are errors. |
| ReleaseDates.FormatReleaseDate | core/src/main/java/com/paulrybitskyi/gamedge/core/formatters/GameReleaseDateFormatter.kt:48-65 | A game with no usable date reads as the "unknown" string. Otherwise the earliest usable date is rendered by its category. |
| ReleaseDates.OnlyRelativeFormattingFails | core/src/main/java/com/paulrybitskyi/gamedge/core/formatters/GameReleaseDateFormatter.kt:48-76 | The unknown-category error arm is unreachable. The only failure left is the relative formatter's, on a full date. |
| ReleaseDates.YearOnlyReadsBack | core/src/main/java/com/paulrybitskyi/gamedge/core/formatters/GameReleaseDateFormatter.kt:105-107 | A year-only release date renders as text that parses back to its year. |
| RefreshThrottle.LastRefresh | data/src/main/java/com/paulrybitskyi/gamedge/data/utils/GamesRefreshingThrottler.kt:108-113 | A category never refreshed counts as refreshed at time 0. |
| RefreshThrottle.CanRefresh | data/src/main/java/com/paulrybitskyi/gamedge/data/utils/GamesRefreshingThrottler.kt:108-113 | A refresh is allowed only after more than the timeout has passed since the last one. |
| RefreshThrottle.Update | data/src/main/java/com/paulrybitskyi/gamedge/data/utils/GamesRefreshingThrottler.kt:116-120 | Records now for the key and leaves every other key as it was. |
| RefreshThrottle.DeniedUntilTimeoutPasses | data/src/main/java/com/paulrybitskyi/gamedge/data/utils/GamesRefreshingThrottler.kt:63-120 | After a refresh at t, the same category is refused exactly up to t plus the timeout. |
| RefreshThrottle.KeysDistinct | data/src/main/java/com/paulrybitskyi/gamedge/data/utils/GamesRefreshingThrottler.kt:58-61 | The categories' store keys are pairwise distinct. |
| RefreshThrottle.UpdateIsolated | data/src/main/java/com/paulrybitskyi/gamedge/data/utils/GamesRefreshingThrottler.kt:68-120 | Refreshing one category never changes whether another may refresh. |
| RefreshThrottle.EmptyStoreAllows | data/src/main/java/com/paulrybitskyi/gamedge/data/utils/GamesRefreshingThrottler.kt:108-113 | With nothing recorded, a category may refresh once the clock is past the timeout. |
| GamesCache.Page | cache/src/main/java/com/paulrybitskyi/gamedge/cache/GamesCacheDataStore.kt:41-41 | The page window is a valid slice of the list. |
| GamesCache.Take | cache/src/main/java/com/paulrybitskyi/gamedge/cache/GamesCacheDataStore.kt:41-41 | `take(offset, limit)` returns a contiguous slice of its input, and the whole input for a window that covers it. |
| GamesCache.Selected | cache/src/main/java/com/paulrybitskyi/gamedge/cache/GamesCacheDataStore.kt:46-95 | Filter-then-sort keeps every matching cached game as often as it occurs, sorted by the key. |
| GamesCache.SearchGames | cache/src/main/java/com/paulrybitskyi/gamedge/cache/GamesCacheDataStore.kt:38-43 | Every game returned is cached and its lower-cased name contains the query. The result is a contiguous run of the matching games in cache order. |
| GamesCache.PopularGames | cache/src/main/java/com/paulrybitskyi/gamedge/cache/GamesCacheDataStore.kt:46-57 | Every game returned is cached, popular enough and recent enough. They come by popularity, descending. The result is a contiguous run of the sorted selection. |
| GamesCache.RecentlyReleasedGames | cache/src/main/java/com/paulrybitskyi/gamedge/cache/GamesCacheDataStore.kt:60-70 | Every game returned was released strictly between the bounds. They come latest first. The result is a contiguous run of the sorted selection. |
| GamesCache.ComingSoonGames | cache/src/main/java/com/paulrybitskyi/gamedge/cache/GamesCacheDataStore.kt:73-82 | Every game returned releases after the bound. They come earliest first. The result is a contiguous run of the sorted selection. |
| GamesCache.MostAnticipatedGames | cache/src/main/java/com/paulrybitskyi/gamedge/cache/GamesCacheDataStore.kt:85-95 | Every game returned releases after the bound and has a hype count. They come by hype, descending. The result is a contiguous run of the sorted selection. |
| GamesCache.GamesWithIds | cache/src/main/java/com/paulrybitskyi/gamedge/cache/GamesCacheDataStore.kt:98-113 | The company and similar-games lookups return only cached games with a requested id. The result is a contiguous run of those games in cache order. |
| GamesCache.PopularGamesComplete | cache/src/main/java/com/paulrybitskyi/gamedge/cache/GamesCacheDataStore.kt:46-57 | With a page covering everything, the result is the whole sorted selection: no popular cached game is lost or duplicated. |
| GamesCache.SearchGamesComplete | cache/src/main/java/com/paulrybitskyi/gamedge/cache/GamesCacheDataStore.kt:38-43 | With a page covering everything, the search returns every cached game whose lower-cased name contains the query, in cache order. |
| GamesCache.RecentlyReleasedGamesComplete | cache/src/main/java/com/paulrybitskyi/gamedge/cache/GamesCacheDataStore.kt:60-70 | With a page covering everything, the result is the whole sorted selection of recently released games. |
| GamesCache.ComingSoonGamesComplete | cache/src/main/java/com/paulrybitskyi/gamedge/cache/GamesCacheDataStore.kt:73-82 | With a page covering everything, the result is the whole sorted selection of coming games. |
| GamesCache.MostAnticipatedGamesComplete | cache/src/main/java/com/paulrybitskyi/gamedge/cache/GamesCacheDataStore.kt:85-95 | With a page covering everything, the result is the whole sorted selection of hyped coming games. |
| GamesCache.GamesWithIdsComplete | cache/src/main/java/com/paulrybitskyi/gamedge/cache/GamesCacheDataStore.kt:98-113 | With a page covering everything, the lookup returns every cached game with a requested id, in cache order. |
| GamesCache.UpperCaseQueryFindsNothing | cache/src/main/java/com/paulrybitskyi/gamedge/cache/GamesCacheDataStore.kt:38-43 | Only the name is lower-cased, so a query with an upper-case letter matches no game. |
| GamesCache.RecentlyReleasedAgreesWithQuery | cache/src/main/java/com/paulrybitskyi/gamedge/cache/GamesCacheDataStore.kt:60-70 | The cache's recently-released filter agrees, game by game, with the remote query's where clause. |
| GamesCache.ComingSoonAgreesWithQuery | cache/src/main/java/com/paulrybitskyi/gamedge/cache/GamesCacheDataStore.kt:73-82 | The cache's coming-soon filter agrees with the remote where clause. |
| GamesCache.MostAnticipatedAgreesWithQuery | cache/src/main/java/com/paulrybitskyi/gamedge/cache/GamesCacheDataStore.kt:85-95 | The cache's most-anticipated filter agrees with the remote where clause. |
| GamesCache.GamesWithIdsAgreesWithQuery | cache/src/main/java/com/paulrybitskyi/gamedge/cache/GamesCacheDataStore.kt:108-113 | The cache's id filter agrees with the remote by-id where clause. |
| ImageConfig.Resize | image-loading/src/main/java/com/paulrybitskyi/gamedge/image/loading/Config.kt:72-78 | Fails exactly when a dimension is not positive, checking width first. Otherwise sets the target size. |
| ImageConfig.SetImageUrl | image-loading/src/main/java/com/paulrybitskyi/gamedge/image/loading/Config.kt:80-84 | Fails exactly on a blank url. Otherwise sets it. |
| Text.FormFeedIsBlank | image-loading/src/main/java/com/paulrybitskyi/gamedge/image/loading/Config.kt:80-84 | The blank test agrees with Kotlin's `isBlank` on the JVM: form feed, vertical tab, the information separators and ideographic space are blank. Next-line and text holding a letter are not. |
| ImageConfig.Apply | image-loading/src/main/java/com/paulrybitskyi/gamedge/image/loading/Config.kt:66-104 | A call fails exactly when it is a resize with a non-positive side or a blank url, with the same error as resize and imageUrl. Every other call stores its value in its own field. Transformations are appended, never replaced. |
| ImageConfig.Build | image-loading/src/main/java/com/paulrybitskyi/gamedge/image/loading/Config.kt:106-125 | Fails exactly when the url or the target is missing, url first. Otherwise every setting is carried into the config unchanged. |
| ImageConfig.RunKeepsConsistent | image-loading/src/main/java/com/paulrybitskyi/gamedge/image/loading/Config.kt:50-104 | Any successful call sequence leaves the builder with a non-blank or unset url, and a target size that is unset or positive in both dimensions. |
| ImageConfig.BuiltConfigIsConsistent | image-loading/src/main/java/com/paulrybitskyi/gamedge/image/loading/Config.kt:40-47 | A built config has a non-blank url. It has a target size exactly when its width is set, so the size is never half set. |
| ImageConfig.UrlAndTargetSuffice | image-loading/src/main/java/com/paulrybitskyi/gamedge/image/loading/Config.kt:106-125 | A non-blank url and a target, followed by any calls other than resize and url, always build. |
| ImageConfig.UrlAndTargetSurvive | image-loading/src/main/java/com/paulrybitskyi/gamedge/image/loading/Config.kt:80-104 | Later calls of the other kinds leave the url and target in place. |
| ImageConfig.TransformationsAccumulate | image-loading/src/main/java/com/paulrybitskyi/gamedge/image/loading/Config.kt:92-98 | A single transformation and then a list are kept together, in call order. |
| ImageConfig.CalledSplit | image-loading/src/main/java/com/paulrybitskyi/gamedge/image/loading/Config.kt:50-104 | A kind of call was made in a sequence exactly when it was made before the last call or is the last call. |
| ImageConfig.ResultListenerComesFromCalls | image-loading/src/main/java/com/paulrybitskyi/gamedge/image/loading/Config.kt:46-47 | A built config has a result listener exactly when a success or failure listener was set. |
| ImageConfig.TargetSizeComesFromResize | image-loading/src/main/java/com/paulrybitskyi/gamedge/image/loading/Config.kt:40-41 | A built config has a target size exactly when `resize` was called. |
| ChipFlow.Place | commons-ui-widgets/src/main/java/com/paulrybitskyi/gamedge/commons/ui/widgets/chipflow/ChipFlowView.kt:212-231 | A chip gets its width capped at the available width and its own height. It continues the row or starts a new one, and the cursor moves to its right edge. |
| ChipFlow.Layout | commons-ui-widgets/src/main/java/com/paulrybitskyi/gamedge/commons/ui/widgets/chipflow/ChipFlowView.kt:192-237 | One bounds per chip. |
| ChipFlow.MeasureChips | commons-ui-widgets/src/main/java/com/paulrybitskyi/gamedge/commons/ui/widgets/chipflow/ChipFlowView.kt:192-237 | The loop computes the same bounds as the chip-by-chip layout, and the measured height. |
| ChipFlow.MeasuredHeight | commons-ui-widgets/src/main/java/com/paulrybitskyi/gamedge/commons/ui/widgets/chipflow/ChipFlowView.kt:236-236 | The height needed reaches the last chip's bottom less one shadow, plus the compensation. With no chips it is one shadow plus the compensation. |
| ChipFlow.TopsNeverDecrease | commons-ui-widgets/src/main/java/com/paulrybitskyi/gamedge/commons/ui/widgets/chipflow/ChipFlowView.kt:212-231 | With non-negative sizes, each chip sits at or below the previous one. |
| ChipFlow.LastTop | commons-ui-widgets/src/main/java/com/paulrybitskyi/gamedge/commons/ui/widgets/chipflow/ChipFlowView.kt:224-225 | The last chip's top sits one shadow below the height taken. |
| ChipFlow.ChipSizes | commons-ui-widgets/src/main/java/com/paulrybitskyi/gamedge/commons/ui/widgets/chipflow/ChipFlowView.kt:213-227 | Every chip gets its capped width and its own height. |
| ChipFlow.ContinuedRowFits | commons-ui-widgets/src/main/java/com/paulrybitskyi/gamedge/commons/ui/widgets/chipflow/ChipFlowView.kt:215-226 | A chip that continues a row stays on that row, to the right of the previous chip, and inside the available width. |
| ChipFlow.WrappedRowClearsUniformChips | commons-ui-widgets/src/main/java/com/paulrybitskyi/gamedge/commons/ui/widgets/chipflow/ChipFlowView.kt:218-224 | When the chips have the same height, a wrapped chip starts below the previous chip. |
| ChipFlow.ShortChipAfterTallOneOverlaps | commons-ui-widgets/src/main/java/com/paulrybitskyi/gamedge/commons/ui/widgets/chipflow/ChipFlowView.kt:218-224 | The row advance uses the wrapping chip's own height. A short chip after a tall one therefore overlaps it. |
| ChipFlow.InitChips | commons-ui-widgets/src/main/java/com/paulrybitskyi/gamedge/commons/ui/widgets/chipflow/ChipFlowView.kt:126-132 | One chip per item, in item order, with fresh consecutive ids and the item's size. |
| ChipFlow.FindPressedChip | commons-ui-widgets/src/main/java/com/paulrybitskyi/gamedge/commons/ui/widgets/chipflow/ChipFlowView.kt:308-312 | Finds the first chip whose bounds contain the point, or none exactly when no chip does. |
| ChipFlow.IndexOf | commons-ui-widgets/src/main/java/com/paulrybitskyi/gamedge/commons/ui/widgets/chipflow/ChipFlowView.kt:315-319 | Finds the first position of the chip, or none exactly when it is absent. |
| ChipFlow.FindItemForChip | commons-ui-widgets/src/main/java/com/paulrybitskyi/gamedge/commons/ui/widgets/chipflow/ChipFlowView.kt:315-319 | No item when the chip is absent or its first position has no item. Otherwise the item at the chip's first position. |
| ChipFlow.TapFindsItemUnderFinger | commons-ui-widgets/src/main/java/com/paulrybitskyi/gamedge/commons/ui/widgets/chipflow/ChipFlowView.kt:295-319 | A tap reports the item whose chip is the first one under the finger. |
| DistinctBy.Distinct | feature-search/src/main/java/com/paulrybitskyi/gamedge/feature/search/presentation/GamesSearchViewModel.kt:205-223 | `distinctBy { it.id }` keeps ids unique, loses no id and adds nothing. |
| DistinctBy.DistinctKeepsFirstOccurrence | feature-search/src/main/java/com/paulrybitskyi/gamedge/feature/search/presentation/GamesSearchViewModel.kt:205-223 | The first game with a given id is kept. |
| DistinctBy.DistinctOfUnique | feature-search/src/main/java/com/paulrybitskyi/gamedge/feature/search/presentation/GamesSearchViewModel.kt:205-223 | A list with unique ids is left as it is. |
| DistinctBy.DistinctKeepsPrefix | feature-search/src/main/java/com/paulrybitskyi/gamedge/feature/search/presentation/GamesSearchViewModel.kt:205-223 | Deduplicating the shown games plus a page keeps the shown games first, unchanged. |
| DistinctBy.DistinctIsIdempotent | feature-search/src/main/java/com/paulrybitskyi/gamedge/feature/search/presentation/GamesSearchViewModel.kt:205-223 | Deduplicating twice is the same as deduplicating once. |
| DistinctBy.FirstIndices | feature-search/src/main/java/com/paulrybitskyi/gamedge/feature/search/presentation/GamesSearchViewModel.kt:220-220 | The positions `distinctBy` keeps: exactly the first occurrences of each id, in increasing order. |
| DistinctBy.DistinctPicksFirstOccurrences | feature-search/src/main/java/com/paulrybitskyi/gamedge/feature/search/presentation/GamesSearchViewModel.kt:220-220 | The deduplicated list is the input read at the first-occurrence positions, so it keeps the input order. |
| SearchPaging.InfoTitleFor | feature-search/src/main/java/com/paulrybitskyi/gamedge/feature/search/presentation/GamesSearchViewModel.kt:111-136 | The empty-state title is the default one exactly for a blank query. Any other query gets the "nothing found" title for that query. |
| SearchPaging.Combine | feature-search/src/main/java/com/paulrybitskyi/gamedge/feature/search/presentation/GamesSearchViewModel.kt:205-223 | A page with games is prepended with everything loaded so far. Anything else passes through unchanged. |
| SearchPaging.Collect | feature-search/src/main/java/com/paulrybitskyi/gamedge/feature/search/presentation/GamesSearchViewModel.kt:225-242 | Records the combined, deduplicated games. It expects more exactly when the page count is a whole multiple of the limit. |
| SearchPaging.StartEmission | feature-search/src/main/java/com/paulrybitskyi/gamedge/feature/search/presentation/GamesSearchViewModel.kt:164-191 | A blank query shows the empty state. Otherwise a loading state shows the games already loaded, or none on a new search. |
| SearchPaging.PageEmission | feature-search/src/main/java/com/paulrybitskyi/gamedge/feature/search/presentation/GamesSearchViewModel.kt:164-199 | A loaded page is shown, not loading, under the query's title. |
| SearchPaging.SearchFailed | feature-search/src/main/java/com/paulrybitskyi/gamedge/feature/search/presentation/GamesSearchViewModel.kt:178-182 | A failed search dispatches a long toast with the mapped message and emits the empty state, under the query's title. The older copy does the same, at feature-search/src/main/java/com/paulrybitskyi/gamedge/feature/search/GamesSearchViewModel.kt lines 147-151. |
| SearchPaging.Reset | feature-search/src/main/java/com/paulrybitskyi/gamedge/feature/search/presentation/GamesSearchViewModel.kt:159-162 | Resetting goes back to the first page with nothing loaded, and touches nothing else. |
| SearchPaging.LoadMore | feature-search/src/main/java/com/paulrybitskyi/gamedge/feature/search/presentation/GamesSearchViewModel.kt:248-257 | Advances to the next page and searches exactly when more games are expected. |
| SearchPaging.AppendingPageKeepsShownGames | feature-search/src/main/java/com/paulrybitskyi/gamedge/feature/search/presentation/GamesSearchViewModel.kt:205-236 | A later page never reorders or drops the games already shown. |
| SearchPaging.CollectKeepsIdsUnique | feature-search/src/main/java/com/paulrybitskyi/gamedge/feature/search/presentation/GamesSearchViewModel.kt:229-236 | The loaded games keep unique ids across pages. |
| SearchPaging.FirstPageIsNotDeduplicated | feature-search/src/main/java/com/paulrybitskyi/gamedge/feature/search/presentation/GamesSearchViewModel.kt:205-236 | The first page is stored as it arrives, so two games with one id on it both stay. |
| SearchPaging.FullPageExpectsMore | feature-search/src/main/java/com/paulrybitskyi/gamedge/feature/search/presentation/GamesSearchViewModel.kt:238-242 | A full first page expects more. A short one does not. |
| SearchPaging.FailureShowsEmptyStateKeepsPaging | feature-search/src/main/java/com/paulrybitskyi/gamedge/feature/search/presentation/GamesSearchViewModel.kt:178-199 | A failure on any page replaces the games on screen with the empty state, and keeps the loaded games, "has more" and the page. |
| GamesSearch.ClearButtonClicked | feature-search/src/main/java/com/paulrybitskyi/gamedge/feature/search/presentation/GamesSearchViewModel.kt:142-144 | Clearing empties the query text and leaves the search and paging as they were. |
| GamesSearch.QueryChanged | feature-search/src/main/java/com/paulrybitskyi/gamedge/feature/search/presentation/GamesSearchViewModel.kt:146-148 | Typing updates the text and the current query, but not the confirmed search. |
| GamesSearch.SearchConfirmed | feature-search/src/main/java/com/paulrybitskyi/gamedge/feature/search/presentation/GamesSearchViewModel.kt:150-157 | A search starts exactly for a non-empty query different from the confirmed one, from the first page. Otherwise nothing changes. |
| GamesSearch.RestoreState | feature-search/src/main/java/com/paulrybitskyi/gamedge/feature/search/presentation/GamesSearchViewModel.kt:99-109 | The saved current query is restored into the query and the text. A search starts exactly when the saved confirmed query equals the current one and is new and non-empty. It then becomes the confirmed query and paging restarts. Otherwise the confirmed query and paging are unchanged. |
| GamesSearch.RestoringSameQuerySearchesIt | feature-search/src/main/java/com/paulrybitskyi/gamedge/feature/search/presentation/GamesSearchViewModel.kt:99-109 | Restoring a state whose current and confirmed queries agree repeats that search. |
| GamesSearch.BottomReached | feature-search/src/main/java/com/paulrybitskyi/gamedge/feature/search/presentation/GamesSearchViewModel.kt:248-257 | Reaching the bottom loads more exactly when more games are expected. Then only the page advances. Otherwise the state is unchanged. |
| GamesSearch.BlankQueryShowsEmptyState | feature-search/src/main/java/com/paulrybitskyi/gamedge/feature/search/presentation/GamesSearchViewModel.kt:164-166 | Confirming a blank query shows the empty state. |
| LegacyGamesSearch.QueryChanged | feature-search/src/main/java/com/paulrybitskyi/gamedge/feature/search/GamesSearchViewModel.kt:121-123 | Typing changes only the text. |
| LegacyGamesSearch.SearchActionRequested | feature-search/src/main/java/com/paulrybitskyi/gamedge/feature/search/GamesSearchViewModel.kt:125-137 | The search action starts a search exactly for a non-empty new query, from the first page. |
| LegacyGamesSearch.PageEmission | feature-search/src/main/java/com/paulrybitskyi/gamedge/feature/search/GamesSearchViewModel.kt:146-146 | A loaded page is shown, not loading, under the title already on screen. |
| LegacyGamesSearch.Created | feature-search/src/main/java/com/paulrybitskyi/gamedge/feature/search/GamesSearchViewModel.kt:76-76 | A new view model has no query and shows the default prompt. |
| LegacyGamesSearch.EmptyFirstPageKeepsDefaultTitle | feature-search/src/main/java/com/paulrybitskyi/gamedge/feature/search/GamesSearchViewModel.kt:76-159 | Created afresh and given a non-blank query with an empty first page, the older copy keeps the default prompt, where the current copy would say nothing was found. |
| LegacyGamesSearch.RepeatedActionIsIgnored | feature-search/src/main/java/com/paulrybitskyi/gamedge/feature/search/GamesSearchViewModel.kt:125-132 | Requesting the same search twice runs it once. |
| AppGamesSearch.QuerySettled | app/src/main/java/com/paulrybitskyi/gamedge/search/GamesSearchViewModel.kt:86-101 | A settled query resets paging to the first page and clears the combined results. |
| AppGamesSearch.StartEmissions | app/src/main/java/com/paulrybitskyi/gamedge/search/GamesSearchViewModel.kt:104-123 | A blank query shows only the empty state. Otherwise the last state is loading, preceded by an empty state only on a new search. |
| AppGamesSearch.PageState | app/src/main/java/com/paulrybitskyi/gamedge/search/GamesSearchViewModel.kt:126-132 | A page is shown as the empty state exactly when it has no games. |
| AppGamesSearch.SearchFailed | app/src/main/java/com/paulrybitskyi/gamedge/search/GamesSearchViewModel.kt:112-116 | A failed search dispatches a long toast with the mapped message and emits the empty state for the search query. |
| AppGamesSearch.CombinePageResults | app/src/main/java/com/paulrybitskyi/gamedge/search/GamesSearchViewModel.kt:140-149 | A page of results is appended to the earlier pages. Anything else passes through. |
| AppGamesSearch.Collect | app/src/main/java/com/paulrybitskyi/gamedge/search/GamesSearchViewModel.kt:152-169 | Records the results shown, and expects more exactly on a full page. |
| AppGamesSearch.LoadNextPage | app/src/main/java/com/paulrybitskyi/gamedge/search/GamesSearchViewModel.kt:192-200 | Advances the page and searches exactly when more data is expected. |
| AppGamesSearch.PagesAccumulate | app/src/main/java/com/paulrybitskyi/gamedge/search/GamesSearchViewModel.kt:140-169 | Two non-empty pages show the first page's games followed by the second's. |
| AppGamesSearch.EmptyPageShowsEmptyState | app/src/main/java/com/paulrybitskyi/gamedge/search/GamesSearchViewModel.kt:126-149 | An empty later page shows the empty state and keeps the earlier results. |
| AppGamesSearch.FailureShowsEmptyStateKeepsResults | app/src/main/java/com/paulrybitskyi/gamedge/search/GamesSearchViewModel.kt:112-169 | A failure shows the empty state and keeps the collected results, "has more" and the page. |
| CompanyModels.RankMatchesComparator | feature-info/src/main/java/com/paulrybitskyi/gamedge/feature/info/mapping/GameInfoCompanyModelFactory.kt:51-62 | One numeric rank orders companies exactly as the chained comparator does: developer, then publisher, then porter, then logo. |
| CompanyModels.Ordered | feature-info/src/main/java/com/paulrybitskyi/gamedge/feature/info/mapping/GameInfoCompanyModelFactory.kt:51-62 | The ordering is a permutation of the companies in which each company comes no later than any it beats. |
| CompanyModels.TiesKeepInputOrder | feature-info/src/main/java/com/paulrybitskyi/gamedge/feature/info/mapping/GameInfoCompanyModelFactory.kt:51-62 | Companies the comparator cannot tell apart keep their input order. |
| CompanyModels.Roles | feature-info/src/main/java/com/paulrybitskyi/gamedge/feature/info/mapping/GameInfoCompanyModelFactory.kt:109-120 | A role is listed exactly when its flag is set, each once, in the order developer, publisher, porter, supporting. |
| CompanyModels.RolesDetermineFlags | feature-info/src/main/java/com/paulrybitskyi/gamedge/feature/info/mapping/GameInfoCompanyModelFactory.kt:109-120 | The role list gives back every flag. |
| CompanyModels.RoleAddsInOrder | feature-info/src/main/java/com/paulrybitskyi/gamedge/feature/info/mapping/GameInfoCompanyModelFactory.kt:110-115 | The roles appended one flag at a time come out in role order. |
| CompanyModels.AllFourRoles | feature-info/src/main/java/com/paulrybitskyi/gamedge/feature/info/mapping/GameInfoCompanyModelFactory.kt:109-120 | A company with all four roles reads "developer, publisher, porter, supporting". |
| CompanyModels.RolesString | feature-info/src/main/java/com/paulrybitskyi/gamedge/feature/info/mapping/GameInfoCompanyModelFactory.kt:109-120 | No role gives an empty line. A single role gives just its name. Two or more roles are joined by ", ", in role order. |
| CompanyModels.DeveloperAndPublisher | feature-info/src/main/java/com/paulrybitskyi/gamedge/feature/info/mapping/GameInfoCompanyModelFactory.kt:48-120 | A developer that publishes reads "developer, publisher". |
| CompanyModels.LogoImageSize | feature-info/src/main/java/com/paulrybitskyi/gamedge/feature/info/mapping/GameInfoCompanyModelFactory.kt:79-101 | The logo never exceeds the maximum width. An unknown logo size takes the whole area. A logo narrower than the maximum gets the full height. |
| CompanyModels.ShrinkStaysInside | feature-info/src/main/java/com/paulrybitskyi/gamedge/feature/info/mapping/GameInfoCompanyModelFactory.kt:97-98 | Scaling the box height by a ratio below one and rounding stays between zero and the box height. |
| CompanyModels.LogoFitsTheBox | feature-info/src/main/java/com/paulrybitskyi/gamedge/feature/info/mapping/GameInfoCompanyModelFactory.kt:79-101 | With the rounding done exactly and a logo of positive height, the logo size lies inside the box in both directions. |
| CompanyModels.CreateCompanyModel | feature-info/src/main/java/com/paulrybitskyi/gamedge/feature/info/mapping/GameInfoCompanyModelFactory.kt:64-107 | The view is as wide as the logo and the full height. A logo url exists exactly when the company has a logo. Name, website and roles line come from the company. |
| CompanyModels.CreateCompanyModels | feature-info/src/main/java/com/paulrybitskyi/gamedge/feature/info/mapping/GameInfoCompanyModelFactory.kt:51-62 | One model per company, in the comparator's order. |
| CompanyModels.CreateNullableCompanyModel | app/src/main/java/com/paulrybitskyi/gamedge/ui/info/mapping/GameInfoCompanyModelFactory.kt:71-84 | The app copy's nullable model is never null. |
| CompanyModels.MapNotNull | app/src/main/java/com/paulrybitskyi/gamedge/ui/info/mapping/GameInfoCompanyModelFactory.kt:67-67 | `mapNotNull` keeps exactly the non-null results, and never grows the list. |
| CompanyModels.AppCreateCompanyModels | app/src/main/java/com/paulrybitskyi/gamedge/ui/info/mapping/GameInfoCompanyModelFactory.kt:57-68 | The app copy returns at most one model per company. |
| CompanyModels.MapNotNullOfNonNull | app/src/main/java/com/paulrybitskyi/gamedge/ui/info/mapping/GameInfoCompanyModelFactory.kt:67-67 | When no result is null, `mapNotNull` keeps one result per element, in order. |
| CompanyModels.MapNotNullOfSome | app/src/main/java/com/paulrybitskyi/gamedge/ui/info/mapping/GameInfoCompanyModelFactory.kt:57-84 | With a never-null model, `mapNotNull` is a plain map. |
| CompanyModels.CopiesAgree | app/src/main/java/com/paulrybitskyi/gamedge/ui/info/mapping/GameInfoCompanyModelFactory.kt:57-84 | The app copy and the feature-info factory produce the same company list. |
| Entities.ValueOf | common-data/src/main/java/com/paulrybitskyi/gamedge/common/data/games/datastores/database/DbGameMapper.kt:91-93 | An enum `valueOf` by name succeeds exactly for a known constant, and keeps its name. |
| GameConversion.ConvertReleaseDate | common-data/src/main/java/com/paulrybitskyi/gamedge/common/data/games/datastores/database/DbGameMapper.kt:107-115 | Converts exactly when the category exists on the target side, and changes nothing else. |
| GameConversion.ConvertAgeRating | common-data/src/main/java/com/paulrybitskyi/gamedge/common/data/games/datastores/database/DbGameMapper.kt:117-124 | Converts exactly when category and rating type both exist on the target side. An unknown category is the error reported. |
| GameConversion.ConvertWebsite | common-data/src/main/java/com/paulrybitskyi/gamedge/common/data/games/datastores/database/DbGameMapper.kt:206-214 | Converts exactly when the category exists on the target side. |
| GameConversion.ConvertImage | common-data/src/main/java/com/paulrybitskyi/gamedge/common/data/games/datastores/database/DbGameMapper.kt:95-101 | Images are copied field for field. |
| GameConversion.ConvertVideo | common-data/src/main/java/com/paulrybitskyi/gamedge/common/data/games/datastores/database/DbGameMapper.kt:126-133 | Videos are copied field for field. |
| GameConversion.ConvertNamed | common-data/src/main/java/com/paulrybitskyi/gamedge/common/data/games/datastores/database/DbGameMapper.kt:135-182 | Genres, modes, perspectives, themes and keywords are copied. |
| GameConversion.ConvertPlatform | common-data/src/main/java/com/paulrybitskyi/gamedge/common/data/games/datastores/database/DbGameMapper.kt:143-150 | Platforms are copied. |
| GameConversion.ConvertCompany | common-data/src/main/java/com/paulrybitskyi/gamedge/common/data/games/datastores/database/DbGameMapper.kt:196-204 | Companies are copied, logo included. |
| GameConversion.ConvertInvolvedCompany | common-data/src/main/java/com/paulrybitskyi/gamedge/common/data/games/datastores/database/DbGameMapper.kt:184-194 | Involved companies keep their company and all four role flags. |
| GameConversion.MapCopies | common-data/src/main/java/com/paulrybitskyi/gamedge/common/data/games/datastores/database/DbGameMapper.kt:372-378 | Mapping a list with a copying conversion gives back the list. |
| GameConversion.MapAllCopies | common-data/src/main/java/com/paulrybitskyi/gamedge/common/data/games/datastores/database/DbGameMapper.kt:107-124 | Mapping with a conversion that copies or fails gives back the list when it succeeds. |
| GameConversion.ReleaseDates | common-data/src/main/java/com/paulrybitskyi/gamedge/common/data/games/datastores/database/DbGameMapper.kt:107-115 | The list converts exactly when every category exists on the target side, and comes back unchanged. |
| GameConversion.AgeRatings | common-data/src/main/java/com/paulrybitskyi/gamedge/common/data/games/datastores/database/DbGameMapper.kt:117-124 | The list converts exactly when every category and rating type exists, and comes back unchanged. |
| GameConversion.Websites | common-data/src/main/java/com/paulrybitskyi/gamedge/common/data/games/datastores/database/DbGameMapper.kt:206-214 | The list converts exactly when every category exists, and comes back unchanged. |
| GameConversion.Images | common-data/src/main/java/com/paulrybitskyi/gamedge/common/data/games/datastores/database/DbGameMapper.kt:103-105 | Image lists are copied. |
| GameConversion.NamedList | common-data/src/main/java/com/paulrybitskyi/gamedge/common/data/games/datastores/database/DbGameMapper.kt:135-182 | Lists of named entities are copied. |
| GameConversion.Convert | common-data/src/main/java/com/paulrybitskyi/gamedge/common/data/games/datastores/igdb/IgdbGameMapper.kt:57-90 | A whole game converts exactly when all its enum names exist on the target side, and comes back field for field. A bad category is the error. |
| DbGameMapper.MapToDomainGame | common-data/src/main/java/com/paulrybitskyi/gamedge/common/data/games/datastores/database/DbGameMapper.kt:61-89 | Converts exactly a conforming game, and keeps every field except the follower count, which the mapper does not copy. |
| DbGameMapper.MapToDatabaseGame | common-data/src/main/java/com/paulrybitskyi/gamedge/common/data/games/datastores/database/DbGameMapper.kt:216-248 | Converts exactly a conforming game, keeping every field except the follower count. |
| DbGameMapper.RoundTrip | common-data/src/test/java/com/paulrybitskyi/gamedge/common/data/games/database/GamesDatabaseDataStoreTest.kt:74-83 | A domain game stored and read back is the same game, up to the follower count the mapper drops. |
| DbGameMapper.MapToDomainGames | common-data/src/main/java/com/paulrybitskyi/gamedge/common/data/games/datastores/database/DbGameMapper.kt:372-378 | The list converts exactly when every game conforms, element by element. |
| DbGameMapper.MapToDatabaseGames | common-data/src/main/java/com/paulrybitskyi/gamedge/common/data/games/datastores/database/DbGameMapper.kt:372-378 | The list converts exactly when every game conforms, element by element. |
| DbGameMapper.ListRoundTrip | common-data/src/test/java/com/paulrybitskyi/gamedge/common/data/games/database/GamesDatabaseDataStoreTest.kt:74-83 | Games without a follower count survive the list round trip exactly. |
| DatabaseGameMapper.MapToDatabaseGame | database/src/main/java/com/paulrybitskyi/gamedge/database/games/datastores/GameMapper.kt:63-132 | Converts exactly a conforming game, unchanged. |
| DatabaseGameMapper.MapToDataGame | database/src/main/java/com/paulrybitskyi/gamedge/database/games/datastores/GameMapper.kt:235-269 | Converts exactly a conforming game, unchanged. |
| DatabaseGameMapper.MapToDataCompany | database/src/main/java/com/paulrybitskyi/gamedge/database/games/datastores/GameMapper.kt:385-393 | A company keeps its id, name, website, developed games and logo. |
| DatabaseGameMapper.RoundTrip | database/src/main/java/com/paulrybitskyi/gamedge/database/games/datastores/GameMapper.kt:63-269 | A data game stored and read back is the same game whenever both sides know its constants. |
| DatabaseGameMapper.MapToDatabaseGames | database/src/main/java/com/paulrybitskyi/gamedge/database/games/datastores/GameMapper.kt:410-417 | The list converts exactly when every game conforms, unchanged. |
| DatabaseGameMapper.MapToDataGames | database/src/main/java/com/paulrybitskyi/gamedge/database/games/datastores/GameMapper.kt:410-417 | The list converts exactly when every game conforms, unchanged. |
| DatabaseGameMapper.ListRoundTrip | database/src/main/java/com/paulrybitskyi/gamedge/database/games/datastores/GameMapper.kt:410-417 | A list stored and read back is the same list. |
| IgdbGameMapper.MapToDomainGame | common-data/src/main/java/com/paulrybitskyi/gamedge/common/data/games/datastores/igdb/IgdbGameMapper.kt:57-211 | Converts exactly a conforming api game, unchanged. A bad category is the error. |
| IgdbGameMapper.MapToDomainGames | common-data/src/main/java/com/paulrybitskyi/gamedge/common/data/games/datastores/igdb/IgdbGameMapper.kt:214-216 | The list converts exactly when every game conforms, unchanged. |
| ApiGameMapper.MapToDataGame | igdb-api/src/main/java/com/paulrybitskyi/gamedge/igdb/api/games/datastores/GameMapper.kt:25-194 | Converts exactly a conforming api game, unchanged. A missing cover stays missing. |
| ApiGameMapper.MapToDataGames | igdb-api/src/main/java/com/paulrybitskyi/gamedge/igdb/api/games/datastores/GameMapper.kt:200-202 | The list converts exactly when every game conforms, element by element. |
| LegacyConversion.ConvertUrlImage | igdb-api/src/main/java/com/paulrybitskyi/gamedge/igdb/api/datastore/Mappings.kt:62-68 | Url images are copied. |
| LegacyConversion.UrlImages | igdb-api/src/main/java/com/paulrybitskyi/gamedge/igdb/api/datastore/Mappings.kt:57-59 | Url image lists are copied. |
| LegacyConversion.ConvertTimeToBeat | igdb-api/src/main/java/com/paulrybitskyi/gamedge/igdb/api/datastore/Mappings.kt:71-77 | Time to beat is copied. |
| LegacyConversion.ConvertPlatform | igdb-api/src/main/java/com/paulrybitskyi/gamedge/igdb/api/datastore/Mappings.kt:110-114 | The abbreviated platform is copied. |
| LegacyConversion.ConvertCompany | igdb-api/src/main/java/com/paulrybitskyi/gamedge/igdb/api/datastore/Mappings.kt:180-185 | The company is copied. |
| LegacyConversion.ConvertCompanyRoles | igdb-api/src/main/java/com/paulrybitskyi/gamedge/igdb/api/datastore/Mappings.kt:170-177 | The involved company keeps its company and role flags. |
| LegacyConversion.ConvertWebsite | igdb-api/src/main/java/com/paulrybitskyi/gamedge/igdb/api/datastore/Mappings.kt:188-199 | Converts exactly when the category is known, and then gives back the same website, trust flag included. |
| LegacyConversion.Websites | igdb-api/src/main/java/com/paulrybitskyi/gamedge/igdb/api/datastore/Mappings.kt:188-199 | The list converts exactly when every category is known, unchanged. |
| IgdbMappings.Convert | igdb-api/src/main/java/com/paulrybitskyi/gamedge/igdb/api/datastore/Mappings.kt:27-54 | An older-generation game converts exactly when its constants exist on the target side, unchanged. |
| IgdbMappings.ToApiGame | igdb-api/src/main/java/com/paulrybitskyi/gamedge/igdb/api/datastore/Mappings.kt:27-54 | A data game converts to the api side exactly when it conforms there, unchanged. |
| IgdbMappings.ToDataGame | igdb-api/src/main/java/com/paulrybitskyi/gamedge/igdb/api/datastore/Mappings.kt:215-242 | An api game converts to the data side exactly when it conforms there, unchanged. |
| IgdbMappings.RoundTrip | igdb-api/src/main/java/com/paulrybitskyi/gamedge/igdb/api/datastore/Mappings.kt:27-242 | A data game sent to the api side and back is the same game. |
| IgdbMappings.ToDataGames | igdb-api/src/main/java/com/paulrybitskyi/gamedge/igdb/api/datastore/Mappings.kt:210-212 | The list converts exactly when every game conforms, unchanged. |
| IgdbMappings.ToDataError | igdb-api/src/main/java/com/paulrybitskyi/gamedge/igdb/api/datastore/Mappings.kt:390-399 | The kinds are tried in the order server, http, network, unknown, and each carries its message. An error of no kind fails. |
| IgdbMappings.ToDataStoreResult | igdb-api/src/main/java/com/paulrybitskyi/gamedge/igdb/api/datastore/Mappings.kt:202-207 | A success maps its games and a failure maps its error, each failing exactly when that mapping fails. |
| UseCaseGameMapper.MapToDomainGame | data/src/main/java/com/paulrybitskyi/gamedge/data/games/usecases/commons/GameMapper.kt:25-159 | The domain game converts exactly when its constants exist on the domain side, unchanged. |
| UseCaseGameMapper.MapToDomainGames | data/src/main/java/com/paulrybitskyi/gamedge/data/games/usecases/commons/GameMapper.kt:165-167 | The list converts exactly when every game conforms, element by element. |
| AppScreens.ImageViewerRouteDefaults | app/src/main/java/com/paulrybitskyi/gamedge/Screen.kt:62-72 | The image viewer route defaults to no title and the first image. |
| AppScreens.FirstContained | app/src/main/java/com/paulrybitskyi/gamedge/Screen.kt:85-97 | Finds the first screen, in the `when` order, whose route the text contains. Gives none exactly when there is no such screen. |
| AppScreens.ForRoute | app/src/main/java/com/paulrybitskyi/gamedge/Screen.kt:85-97 | Fails exactly when no screen route is contained. Otherwise gives the first screen, in the `when` order, whose route is contained. |
| AppScreens.Save | app/src/main/java/com/paulrybitskyi/gamedge/Screen.kt:80-83 | The saved text contains the screen's route. |
| AppScreens.Index | app/src/main/java/com/paulrybitskyi/gamedge/Screen.kt:85-97 | Every screen has its place in the lookup order. |
| AppScreens.MissingCharacter | app/src/main/java/com/paulrybitskyi/gamedge/Screen.kt:75-76 | A route holding a character the text lacks is not contained in it. |
| AppScreens.SettingsNotInSearch | app/src/main/java/com/paulrybitskyi/gamedge/Screen.kt:90-91 | The settings route does not occur in the search route. |
| AppScreens.PackageHasNoCapitals | app/src/main/java/com/paulrybitskyi/gamedge/Screen.kt:75-76 | The feature package has no capital letters. |
| AppScreens.RouteCapitals | app/src/main/java/com/paulrybitskyi/gamedge/Screen.kt:39-76 | Every capital letter of a screen's route is one of that route class's capitals. |
| AppScreens.Mark | app/src/main/java/com/paulrybitskyi/gamedge/Screen.kt:39-73 | Each screen is assigned one capital letter of its own route class. Proofs use it to tell the screen's route apart from later routes. |
| AppScreens.MarkInRoute | app/src/main/java/com/paulrybitskyi/gamedge/Screen.kt:39-76 | That capital occurs in the screen's own route. |
| AppScreens.EarlierRouteDoesNotMatch | app/src/main/java/com/paulrybitskyi/gamedge/Screen.kt:85-97 | No screen's route contains the route of a screen tried before it. |
| AppScreens.SaverRoundTrip | app/src/main/java/com/paulrybitskyi/gamedge/Screen.kt:80-97 | Restoring a saved screen gives back that screen. |
| DashboardScreens.ForRoute | app/src/main/java/com/paulrybitskyi/gamedge/dashboard/compose/Screen.kt:99-110 | Succeeds exactly for a screen's route and gives that screen. Any other text is an error. |
| DashboardScreens.RoutesAreDistinct | app/src/main/java/com/paulrybitskyi/gamedge/dashboard/compose/Screen.kt:32-68 | No two screens share a route. |
| DashboardScreens.SaverRoundTrip | app/src/main/java/com/paulrybitskyi/gamedge/dashboard/compose/Screen.kt:94-110 | Restoring a saved screen gives back that screen. |
| DashboardScreens.ImageViewerRouteIsTemplate | app/src/main/java/com/paulrybitskyi/gamedge/dashboard/compose/Screen.kt:58-68 | The image viewer's route is its three parameters, each bound to its own placeholder. |
| DashboardScreens.TwoParams | app/src/main/java/com/paulrybitskyi/gamedge/dashboard/compose/Screen.kt:83-87 | Two parameters render as `n1=v1&n2=v2`. |
| DashboardScreens.ThreeParams | app/src/main/java/com/paulrybitskyi/gamedge/dashboard/compose/Screen.kt:58-62 | Three parameters render joined by '&'. |
| DashboardScreens.CreateCategoryLink | app/src/main/java/com/paulrybitskyi/gamedge/dashboard/compose/Screen.kt:43-45 | The category link is the route with the category in place of its placeholder. |
| DashboardScreens.CreateGameInfoLink | app/src/main/java/com/paulrybitskyi/gamedge/dashboard/compose/Screen.kt:53-55 | The game-info link starts with its route prefix and has more after it. |
| DashboardScreens.GameInfoLinkCarriesId | app/src/main/java/com/paulrybitskyi/gamedge/dashboard/compose/Screen.kt:48-55 | The text after the prefix parses back to the game id. |
| DashboardScreens.LinksFillPlaceholders | app/src/main/java/com/paulrybitskyi/gamedge/dashboard/compose/Screen.kt:38-55 | Each link is its route with the placeholder replaced by the argument. |
| DashboardScreens.ImageViewerLinkFillsRoute | app/src/main/java/com/paulrybitskyi/gamedge/dashboard/compose/Screen.kt:70-89 | With a title, the image viewer link binds all three route parameters in the route's order. Without one, it binds the last two. The urls are encoded and joined. |
| ContributionTypes.First | hilt-binder-compiler/src/main/java/com/paulrybitskyi/hiltbinder/processor/detectors/ContributionTypeDetector.kt:56-64 | `first { … }` finds the first matching annotation, or none exactly when none matches. |
| ContributionTypes.GetAnnotation | hilt-binder-compiler/src/main/java/com/paulrybitskyi/hiltbinder/processor/detectors/ContributionTypeDetector.kt:86-107 | Looking up an annotation type the class carries finds one of that type on the class. |
| ContributionTypes.LookupFindsKey | hilt-binder-compiler/src/main/java/com/paulrybitskyi/hiltbinder/processor/detectors/ContributionTypeDetector.kt:67-107 | The value read for a standard key comes from the first map-key annotation itself. |
| ContributionTypes.CreateStandardKeyType | hilt-binder-compiler/src/main/java/com/paulrybitskyi/hiltbinder/processor/detectors/ContributionTypeDetector.kt:67-78 | Gives a standard key exactly for the binder's four key annotation types. Any other map key is custom. |
| ContributionTypes.DetectType | hilt-binder-compiler/src/main/java/com/paulrybitskyi/hiltbinder/processor/detectors/ContributionTypeDetector.kt:45-53 | No collection gives no contribution, and a set gives a set contribution. A map fails exactly when the class has no map-key annotation. Only a map gives a map contribution. |
| ContributionTypes.MapKeyIsFirstMapKeyAnnotation | hilt-binder-compiler/src/test/java/com/paulrybitskyi/hiltbinder/processor/HiltBinderTest.kt:579-672 | A map contribution is keyed by the first map-key annotation, whatever else the class carries. |
| ContributionTypes.KeyDeterminesAnnotation | hilt-binder-compiler/src/main/java/com/paulrybitskyi/hiltbinder/processor/detectors/ContributionTypeDetector.kt:56-107 | Different map-key annotations give different keys. |

## Left out

- Android UI, Compose, view drawing and touch dispatch are left out. Only the layout arithmetic and the hit test of the chip widget are modelled, with integer coordinates.
- Coroutines, flows, `debounce` and `onStart` ordering are left out. A flow is modelled as the list of states it emits. The app view model's 500 ms debounce is modelled as the moment the query settles (`AppGamesSearch.QuerySettled`).
- `ChronoUnit.between` calendar arithmetic and the clock are parameters of the relative date formatter. So are `DateTimeFormatter` patterns and string resources in the release-date formatter.
- Floating point is left out. Popularity is an integer. The logo size's two rounded float computations (the adjusted width and the shrunk height) are parameters of the company-model factory.
- `URLEncoder.encode` and `toCsv` are parameters of the image viewer link.
- The cache's `take(offset, limit)` extension is not part of this model. It is modelled as an abstract window giving a valid slice.
- The cache's `ConcurrentHashMap` iteration order is modelled as an arbitrary sequence of its values.
- `Constants.POPULAR_GAMES_MIN_POPULARITY` is not part of this model and is a parameter.
- The cache's result is always a success, as in the source.
- `Pagination`, `nextOffset` and `nextPage` are not part of this model. Pagination is a record with a limit, and advancing is a parameter.
- SearchPaging.Collect requires a non-zero limit, because the source divides by it.
- AppGamesSearch.Collect requires a non-zero limit for the same reason.
- Enum constants are modelled by name, with a set of known names per layer. The many field-copying statements of the mappers are modelled as copies on one shared entity shape per generation.
- DbGameMapper.RoundTrip holds only up to the follower count. DbGameMapper does not copy `followerCount`, which IgdbGameMapper sets on the same domain game.
- The "projected" entity of the use-case mapper is a reduced game shape. Only the fields that mapper reads are modelled.
- The other detectors of the hilt-binder processor and its `javax.lang.model` lookups are left out. So are the processor's code generation and messages. An annotation is plain data that says whether its type carries dagger's map-key marker. The binder's four standard key annotations are taken to carry it.
- RefreshThrottle.CanRefresh does not model the 64-bit overflow of `lastRefresh + timeout`.
- ImageConfig.Build does not model that the built config shares the builder's mutable transformation list.
- The separators of `and`/`or` in a where clause are taken from the query builder's tests, because the condition builder's rendering is not part of this model.
- The query builder's `exclude` and `fields *` sections are not modelled, and neither is HTTP.
- `Int`/`Long` ranges are not modelled anywhere, except the `toInt()` truncation of the relative date counts.
- CreateGamesCategoryRoute, CreateGameInfoRoute and CreateImageViewerRoute are plain constructors of the route objects, so they have no contract of their own. AppScreens.ImageViewerRouteDefaults states their defaults.
- DashboardScreens.CreateImageViewerLink has no contract of its own. DashboardScreens.ImageViewerLinkFillsRoute states what it builds.
- GamesCache.SearchGames lower-cases ASCII letters only. Kotlin's `lowercase()` also maps other Unicode letters, and that table is not modelled, so names with non-ASCII capitals are compared differently.
- CompanyModels.LogoImageSize: the `roundToInt` exception on NaN is not modelled. It occurs for a 0 by 0 logo, or a zero-height logo in a zero-height box. The two rounded float computations are parameters and always give a number; CompanyModels.LogoFitsTheBox states what exact rounding gives.
- Text.IsWhitespace lists the Unicode space and separator characters of one fixed Unicode version; later additions to those categories are not followed.
- The logger call on a failed search is left out. The error mapper that turns the failure into the toast's text is not part of this model; the text is a parameter.
