/** The discovery refresh throttle: one "last refreshed at" timestamp per
    game category in a key-value store, and a refresh is allowed only once
    more than thirty seconds have passed since it. The store and the clock
    are explicit values. */
module RefreshThrottle {

  datatype Category = Popular | RecentlyReleased | ComingSoon | MostAnticipated

  /** The preference keys, one per category. */
  function Key(c: Category): string {
    match c
    case Popular => "popular_games_last_refreshing_time"
    case RecentlyReleased => "recently_released_games_last_refreshing_time"
    case ComingSoon => "coming_soon_games_last_refreshing_time"
    case MostAnticipated => "most_anticipated_games_last_refreshing_time"
  }

  /** Thirty seconds, in milliseconds. */
  const TIMEOUT_MILLIS: int := 30 * 1000

  type Store = map<string, int>

  /** The stored timestamp, 0 when the key was never written. */
  function LastRefresh(store: Store, key: string): (t: int)
    ensures key !in store ==> t == 0
    ensures key in store ==> t == store[key]
  {
    if key in store then store[key] else 0
  }

  /** `canRefreshGames`: strictly more than the timeout since the last
      refresh. */
  function CanRefresh(store: Store, key: string, now: int): (can: bool)
    ensures can <==> now - LastRefresh(store, key) > TIMEOUT_MILLIS
  {
    now > LastRefresh(store, key) + TIMEOUT_MILLIS
  }

  /** `updateGamesLastRefreshingTime`: records now under the key. */
  function Update(store: Store, key: string, now: int): (s: Store)
    ensures key in s && s[key] == now
    ensures s.Keys == store.Keys + {key}
    ensures forall k :: k in store && k != key ==> s[k] == store[k]
  {
    store[key := now]
  }

  function CanRefreshCategory(store: Store, c: Category, now: int): bool {
    CanRefresh(store, Key(c), now)
  }

  function UpdateCategory(store: Store, c: Category, now: int): Store {
    Update(store, Key(c), now)
  }

  /** After a refresh at time t, refreshing is denied up to and including
      t + 30 s and allowed afterwards. */
  lemma DeniedUntilTimeoutPasses(store: Store, c: Category, t: int, now: int)
    ensures !CanRefreshCategory(UpdateCategory(store, c, t), c, now) <==> now <= t + TIMEOUT_MILLIS
  {
  }

  /** The four categories use four different keys. */
  lemma KeysDistinct(c1: Category, c2: Category)
    ensures Key(c1) == Key(c2) <==> c1 == c2
  {
  }

  /** Recording one category's refresh leaves every other category's answer
      as it was. */
  lemma UpdateIsolated(store: Store, c: Category, other: Category, t: int, now: int)
    requires other != c
    ensures CanRefreshCategory(UpdateCategory(store, c, t), other, now) == CanRefreshCategory(store, other, now)
  {
    KeysDistinct(c, other);
  }

  /** With nothing stored, refreshing is allowed once the clock is past the
      timeout. */
  lemma EmptyStoreAllows(c: Category, now: int)
    ensures CanRefreshCategory(map[], c, now) <==> now > TIMEOUT_MILLIS
  {
  }
}
