/** The app's navigation screens. A screen's route is the qualified name of
    its feature's route class, and a route seen in the back stack is mapped
    back to the first screen whose route it contains. */
module AppScreens {
  import opened Results
  import opened Text

  datatype Screen =
    | GamesDiscovery
    | LikedGames
    | GamingNews
    | Settings
    | GamesSearch
    | GamesCategory
    | GameInfo
    | ImageViewer

  const START_SCREEN: Screen := GamesDiscovery

  /** The order in which `forRoute` tries the screens. */
  const ORDER: seq<Screen> :=
    [GamesDiscovery, LikedGames, GamingNews, Settings, GamesSearch, GamesCategory, GameInfo, ImageViewer]

  const FEATURE_PACKAGE := "com.paulrybitskyi.gamedge.feature."

  /** The route class of each screen, relative to the feature package. */
  function ClassName(s: Screen): string {
    match s
    case GamesDiscovery => "discovery.GamesDiscoveryRoute"
    case LikedGames => "likes.presentation.LikedGamesRoute"
    case GamingNews => "news.presentation.GamingNewsRoute"
    case Settings => "settings.presentation.SettingsRoute"
    case GamesSearch => "search.presentation.GamesSearchRoute"
    case GamesCategory => "category.GamesCategoryRoute"
    case GameInfo => "info.presentation.GameInfoRoute"
    case ImageViewer => "image.viewer.ImageViewerRoute"
  }

  /** `route`: the qualified name of the screen's route class. */
  function Route(s: Screen): string {
    FEATURE_PACKAGE + ClassName(s)
  }

  /** The route objects the screens with arguments create. */
  datatype RouteArgs =
    | GamesCategoryRoute(category: string)
    | GameInfoRoute(gameId: int)
    | ImageViewerRoute(imageUrls: seq<string>, title: Option<string>, initialPosition: int)

  function CreateGamesCategoryRoute(category: string): RouteArgs
  {
    GamesCategoryRoute(category := category)
  }

  function CreateGameInfoRoute(gameId: int): RouteArgs
  {
    GameInfoRoute(gameId := gameId)
  }

  /** The image viewer's title defaults to none and its position to the
      first image. */
  function CreateImageViewerRoute(imageUrls: seq<string>, title: Option<string> := None, initialPosition: int := 0)
    : RouteArgs
  {
    ImageViewerRoute(imageUrls := imageUrls, title := title, initialPosition := initialPosition)
  }

  lemma ImageViewerRouteDefaults(imageUrls: seq<string>)
    ensures CreateImageViewerRoute(imageUrls) == ImageViewerRoute(imageUrls, None, 0)
  {
  }

  datatype RouteError = NoScreenForRoute(route: string)

  /** The position of the first screen whose route occurs in `route`. */
  function FirstContained(route: string, screens: seq<Screen>, routeOf: Screen -> string): (r: Option<nat>)
    ensures r.Some? ==> r.value < |screens| && Contains(route, routeOf(screens[r.value]))
    ensures r.Some? ==> forall j :: 0 <= j < r.value ==> !Contains(route, routeOf(screens[j]))
    ensures r.None? <==> forall j :: 0 <= j < |screens| ==> !Contains(route, routeOf(screens[j]))
  {
    if |screens| == 0 then None
    else if Contains(route, routeOf(screens[0])) then Some(0)
    else
      match FirstContained(route, screens[1..], routeOf)
      case None => None
      case Some(k) => Some(k + 1)
  }

  /** `forRoute`: the first screen, in the order above, whose route occurs
      in the given one; an error when there is none. */
  function ForRoute(route: string): (r: Result<Screen, RouteError>)
    ensures r.Err? <==> forall j :: 0 <= j < |ORDER| ==> !Contains(route, Route(ORDER[j]))
    ensures r.Err? ==> r.error == NoScreenForRoute(route)
    ensures r.Ok? ==> Contains(route, Route(r.value))
    ensures r.Ok? ==> exists i :: 0 <= i < |ORDER| && ORDER[i] == r.value &&
                       forall j :: 0 <= j < i ==> !Contains(route, Route(ORDER[j]))
  {
    match FirstContained(route, ORDER, Route)
    case None => Err(NoScreenForRoute(route))
    case Some(i) => Ok(ORDER[i])
  }

  /** The saver keeps the route. */
  function Save(s: Screen): (saved: string)
    ensures Contains(saved, Route(s))
  {
    ContainsItself(Route(s));
    Route(s)
  }

  function Restore(saved: string): Result<Screen, RouteError> {
    ForRoute(saved)
  }

  /** The position of a screen in the order above. */
  function Index(s: Screen): (i: nat)
    ensures i < |ORDER| && ORDER[i] == s
  {
    match s
    case GamesDiscovery => 0
    case LikedGames => 1
    case GamingNews => 2
    case Settings => 3
    case GamesSearch => 4
    case GamesCategory => 5
    case GameInfo => 6
    case ImageViewer => 7
  }

  /** A route that lacks a character of another route cannot contain it. */
  lemma MissingCharacter(s: string, p: string, c: char)
    requires c in p && c !in s
    ensures !Contains(s, p)
  {
    var k :| 0 <= k < |p| && p[k] == c;
    forall i | 0 <= i <= |s| - |p|
      ensures !OccursAt(s, p, i)
    {
      assert s[i..i + |p|][k] == s[i + k];
    }
  }

  /** The settings route is one character shorter than the search route and
      fits it at neither offset. */
  lemma SettingsNotInSearch()
    ensures !Contains(Route(GamesSearch), Route(Settings))
  {
    var s, p := Route(GamesSearch), Route(Settings);
    assert |s| == |p| + 1;
    forall i | 0 <= i <= |s| - |p|
      ensures !OccursAt(s, p, i)
    {
      if i == 0 {
        assert s[0..|p|][36] == s[36] != p[36];
      } else {
        assert s[1..1 + |p|][34] == s[35] != p[34];
      }
    }
  }

  // The capital letters of the routes tell them apart: each route has one
  // that no route after it has, except that the settings route must be
  // compared with the search route letter by letter.

  function Capitals(s: Screen): set<char> {
    match s
    case GamesDiscovery => {'G', 'D', 'R'}
    case LikedGames => {'L', 'G', 'R'}
    case GamingNews => {'G', 'N', 'R'}
    case Settings => {'S', 'R'}
    case GamesSearch => {'G', 'S', 'R'}
    case GamesCategory => {'G', 'C', 'R'}
    case GameInfo => {'G', 'I', 'R'}
    case ImageViewer => {'I', 'V', 'R'}
  }

  lemma PackageHasNoCapitals()
    ensures forall c :: c in FEATURE_PACKAGE ==> !IsUpper(c)
  {
  }

  lemma GamesDiscoveryCapitals()
    ensures forall c :: c in ClassName(GamesDiscovery) && IsUpper(c) ==> c in Capitals(GamesDiscovery)
  {
  }

  lemma LikedGamesCapitals()
    ensures forall c :: c in ClassName(LikedGames) && IsUpper(c) ==> c in Capitals(LikedGames)
  {
  }

  lemma GamingNewsCapitals()
    ensures forall c :: c in ClassName(GamingNews) && IsUpper(c) ==> c in Capitals(GamingNews)
  {
  }

  lemma SettingsCapitals()
    ensures forall c :: c in ClassName(Settings) && IsUpper(c) ==> c in Capitals(Settings)
  {
  }

  lemma GamesSearchCapitals()
    ensures forall c :: c in ClassName(GamesSearch) && IsUpper(c) ==> c in Capitals(GamesSearch)
  {
  }

  lemma GamesCategoryCapitals()
    ensures forall c :: c in ClassName(GamesCategory) && IsUpper(c) ==> c in Capitals(GamesCategory)
  {
  }

  lemma GameInfoCapitals()
    ensures forall c :: c in ClassName(GameInfo) && IsUpper(c) ==> c in Capitals(GameInfo)
  {
  }

  lemma ImageViewerCapitals()
    ensures forall c :: c in ClassName(ImageViewer) && IsUpper(c) ==> c in Capitals(ImageViewer)
  {
  }

  lemma RouteCapitals(s: Screen)
    ensures forall c :: c in Route(s) && IsUpper(c) ==> c in Capitals(s)
  {
    PackageHasNoCapitals();
    match s
    case GamesDiscovery => GamesDiscoveryCapitals();
    case LikedGames => LikedGamesCapitals();
    case GamingNews => GamingNewsCapitals();
    case Settings => SettingsCapitals();
    case GamesSearch => GamesSearchCapitals();
    case GamesCategory => GamesCategoryCapitals();
    case GameInfo => GameInfoCapitals();
    case ImageViewer => ImageViewerCapitals();
  }

  /** The capital letter of a route that no later route has. */
  function Mark(t: Screen): (c: char)
    ensures IsUpper(c) && c in Capitals(t)
  {
    match t
    case GamesDiscovery => 'D'
    case LikedGames => 'L'
    case GamingNews => 'N'
    case Settings => 'S'
    case GamesSearch => 'S'
    case GamesCategory => 'C'
    case GameInfo => 'G'
    case ImageViewer => 'V'
  }

  lemma MarkInRoute(t: Screen)
    ensures Mark(t) in Route(t)
  {
    match t
    case GamesDiscovery => assert Route(t)[49] == 'D';
    case LikedGames => assert Route(t)[53] == 'L';
    case GamingNews => assert Route(t)[58] == 'N';
    case Settings => assert Route(t)[56] == 'S';
    case GamesSearch => assert Route(t)[59] == 'S';
    case GamesCategory => assert Route(t)[48] == 'C';
    case GameInfo => assert Route(t)[52] == 'G';
    case ImageViewer => assert Route(t)[52] == 'V';
  }

  /** No route tried before a screen's own occurs in that screen's route. */
  lemma EarlierRouteDoesNotMatch(t: Screen, s: Screen)
    requires Index(t) < Index(s)
    ensures !Contains(Route(s), Route(t))
  {
    if t == Settings && s == GamesSearch {
      SettingsNotInSearch();
    } else {
      assert Mark(t) !in Capitals(s);
      RouteCapitals(s);
      MarkInRoute(t);
      MissingCharacter(Route(s), Route(t), Mark(t));
    }
  }

  /** The lookup reads a screen's position back from the order. */
  lemma IndexOfOrder(j: nat)
    requires j < |ORDER|
    ensures Index(ORDER[j]) == j
  {
    if j == 0 {
    } else if j == 1 {
    } else if j == 2 {
    } else if j == 3 {
    } else if j == 4 {
    } else if j == 5 {
    } else if j == 6 {
    } else {
      assert j == 7;
    }
  }

  /** The first screen whose route occurs is the one at position `i` when
      its route occurs and no earlier one does. */
  lemma FirstContainedFinds(route: string, screens: seq<Screen>, routeOf: Screen -> string, i: nat)
    requires i < |screens| && Contains(route, routeOf(screens[i]))
    requires forall j :: 0 <= j < i ==> !Contains(route, routeOf(screens[j]))
    ensures FirstContained(route, screens, routeOf) == Some(i)
  {
    var r := FirstContained(route, screens, routeOf);
    assert r.Some?;
    assert !(r.value < i);
    assert !(r.value > i);
  }

  /** Restoring a saved screen gives the same screen. */
  lemma SaverRoundTrip(s: Screen)
    ensures Restore(Save(s)) == Ok(s)
  {
    ContainsItself(Route(s));
    forall j | 0 <= j < Index(s)
      ensures !Contains(Route(s), Route(ORDER[j]))
    {
      IndexOfOrder(j);
      EarlierRouteDoesNotMatch(ORDER[j], s);
    }
    FirstContainedFinds(Route(s), ORDER, Route, Index(s));
  }
}

/** The older dashboard navigation: fixed route strings, some with argument
    placeholders, matched exactly; and the links that fill them in. */
module DashboardScreens {
  import opened Results
  import opened Text
  import opened Lists

  datatype Screen =
    | News
    | Discover
    | Likes
    | GamesSearch
    | GamesCategory
    | GameInfo
    | ImageViewer

  const START_SCREEN: Screen := Discover

  const CATEGORY := "category"
  const GAME_ID := "gameId"
  const TITLE := "title"
  const INITIAL_POSITION := "initial-position"
  const IMAGE_URLS := "image-urls"

  function Route(s: Screen): string {
    match s
    case News => "news"
    case Discover => "discover"
    case Likes => "likes"
    case GamesSearch => "games-search"
    case GamesCategory => "games-category/{" + CATEGORY + "}"
    case GameInfo => "game-info/{" + GAME_ID + "}"
    case ImageViewer =>
      "image-viewer?" +
      TITLE + "={" + TITLE + "}&" +
      INITIAL_POSITION + "={" + INITIAL_POSITION + "}&" +
      IMAGE_URLS + "={" + IMAGE_URLS + "}"
  }

  datatype RouteError = NoScreenForRoute(route: string)

  /** `forRoute`: the screen whose route is exactly the given one. */
  function ForRoute(route: string): (r: Result<Screen, RouteError>)
    ensures r.Ok? <==> exists s :: Route(s) == route
    ensures r.Ok? ==> Route(r.value) == route
    ensures r.Err? ==> r.error == NoScreenForRoute(route)
  {
    if route == Route(News) then Ok(News)
    else if route == Route(Discover) then Ok(Discover)
    else if route == Route(Likes) then Ok(Likes)
    else if route == Route(GamesSearch) then Ok(GamesSearch)
    else if route == Route(GamesCategory) then Ok(GamesCategory)
    else if route == Route(GameInfo) then Ok(GameInfo)
    else if route == Route(ImageViewer) then Ok(ImageViewer)
    else Err(NoScreenForRoute(route))
  }

  /** No two screens share a route. */
  lemma RoutesAreDistinct(a: Screen, b: Screen)
    requires Route(a) == Route(b)
    ensures a == b
  {
  }

  function Save(s: Screen): string { Route(s) }

  function Restore(saved: string): Result<Screen, RouteError> { ForRoute(saved) }

  /** Restoring a saved screen gives the same screen, for every screen. */
  lemma SaverRoundTrip(s: Screen)
    ensures Restore(Save(s)) == Ok(s)
  {
    var r := ForRoute(Route(s));
    assert r.Ok?;
    RoutesAreDistinct(r.value, s);
  }

  /** `name=value`, the pieces a route's query is made of. */
  function Param(name: string, value: string): string { name + "=" + value }

  function Placeholder(name: string): string { "{" + name + "}" }

  /** The route with each placeholder replaced by a value. */
  function Query(params: seq<(string, string)>): string {
    Join(Map(params, (p: (string, string)) => Param(p.0, p.1)), "&")
  }

  /** A route made of three parameters bound to their placeholders is the
      query of those bindings. */
  lemma ThreePlaceholders(prefix: string, n1: string, n2: string, n3: string)
    ensures prefix + n1 + "={" + n1 + "}&" + n2 + "={" + n2 + "}&" + n3 + "={" + n3 + "}"
         == prefix + Query([(n1, Placeholder(n1)), (n2, Placeholder(n2)), (n3, Placeholder(n3))])
  {
    ThreeParams(n1, Placeholder(n1), n2, Placeholder(n2), n3, Placeholder(n3));
    assert "={" == "=" + "{";
    assert "}&" == "}" + "&";
  }

  /** The image viewer's route is its three parameters, each bound to its
      placeholder. */
  lemma ImageViewerRouteIsTemplate()
    ensures Route(ImageViewer) == "image-viewer?" + Query([(TITLE, Placeholder(TITLE)),
                                                          (INITIAL_POSITION, Placeholder(INITIAL_POSITION)),
                                                          (IMAGE_URLS, Placeholder(IMAGE_URLS))])
  {
    ThreePlaceholders("image-viewer?", TITLE, INITIAL_POSITION, IMAGE_URLS);
  }

  lemma TwoParams(n1: string, v1: string, n2: string, v2: string)
    ensures Query([(n1, v1), (n2, v2)]) == Param(n1, v1) + "&" + Param(n2, v2)
  {
    var parts := Map([(n1, v1), (n2, v2)], (p: (string, string)) => Param(p.0, p.1));
    assert parts == [Param(n1, v1)] + [Param(n2, v2)];
    JoinSnoc([Param(n1, v1)], "&", Param(n2, v2));
  }

  lemma ThreeParams(n1: string, v1: string, n2: string, v2: string, n3: string, v3: string)
    ensures Query([(n1, v1), (n2, v2), (n3, v3)]) == Param(n1, v1) + "&" + Param(n2, v2) + "&" + Param(n3, v3)
  {
    var f := (p: (string, string)) => Param(p.0, p.1);
    var parts := Map([(n1, v1), (n2, v2), (n3, v3)], f);
    assert parts == [Param(n1, v1), Param(n2, v2)] + [Param(n3, v3)];
    assert Map([(n1, v1), (n2, v2)], f) == [Param(n1, v1), Param(n2, v2)];
    JoinSnoc([Param(n1, v1), Param(n2, v2)], "&", Param(n3, v3));
    JoinSnoc([Param(n1, v1)], "&", Param(n2, v2));
  }

  /** `GamesCategory.createLink`. */
  function CreateCategoryLink(category: string): (link: string)
    ensures |link| == |"games-category/"| + |category|
    ensures link[..|"games-category/"|] == Route(GamesCategory)[..|"games-category/"|]
    ensures link[|"games-category/"|..] == category
  {
    "games-category/" + category
  }

  /** `GameInfo.createLink`. */
  function CreateGameInfoLink(gameId: int): (link: string)
    ensures |link| > |"game-info/"| && link[..|"game-info/"|] == "game-info/"
  {
    "game-info/" + IntToString(gameId)
  }

  /** The game id can be read back from its link. */
  lemma GameInfoLinkCarriesId(gameId: int)
    ensures ParseInt(CreateGameInfoLink(gameId)[|"game-info/"|..]) == Some(gameId)
  {
    assert CreateGameInfoLink(gameId)[|"game-info/"|..] == IntToString(gameId);
    ParseIntToString(gameId);
  }

  /** Each screen with an argument has a link that replaces the placeholder
      of its route with the argument. */
  lemma LinksFillPlaceholders(category: string, gameId: int)
    ensures Route(GamesCategory) == "games-category/" + Placeholder(CATEGORY)
    ensures CreateCategoryLink(category) == "games-category/" + category
    ensures Route(GameInfo) == "game-info/" + Placeholder(GAME_ID)
    ensures CreateGameInfoLink(gameId) == "game-info/" + IntToString(gameId)
  {
  }

  /** `ImageViewer.createLink`. The url encoding and the comma-joining of
      the urls are given. The title parameter appears only when there is a
      title. */
  function CreateImageViewerLink(
    title: Option<string>, initialPosition: int, imageUrls: seq<string>,
    encode: string -> string, toCsv: seq<string> -> string): string
  {
    var urls := toCsv(Map(imageUrls, encode));
    "image-viewer?" +
    (if title.Some? then Param(TITLE, title.value) + "&" else "") +
    Param(INITIAL_POSITION, IntToString(initialPosition)) + "&" +
    Param(IMAGE_URLS, urls)
  }

  /** With a title the link binds all three parameters of the route, in the
      route's order; without one it binds the last two. */
  lemma ImageViewerLinkFillsRoute(
    title: Option<string>, initialPosition: int, imageUrls: seq<string>,
    encode: string -> string, toCsv: seq<string> -> string)
    ensures var urls := toCsv(Map(imageUrls, encode));
      CreateImageViewerLink(title, initialPosition, imageUrls, encode, toCsv) ==
      "image-viewer?" +
      if title.Some? then
        Query([(TITLE, title.value), (INITIAL_POSITION, IntToString(initialPosition)), (IMAGE_URLS, urls)])
      else
        Query([(INITIAL_POSITION, IntToString(initialPosition)), (IMAGE_URLS, urls)])
  {
    LinkParams("image-viewer?", title, TITLE, INITIAL_POSITION, IntToString(initialPosition),
               IMAGE_URLS, toCsv(Map(imageUrls, encode)));
  }

  /** An optional first parameter, followed by two more, is the query of the
      parameters present. */
  lemma LinkParams(prefix: string, v1: Option<string>, n1: string, n2: string, v2: string, n3: string, v3: string)
    ensures prefix + (if v1.Some? then Param(n1, v1.value) + "&" else "") + Param(n2, v2) + "&" + Param(n3, v3)
         == prefix + if v1.Some? then Query([(n1, v1.value), (n2, v2), (n3, v3)]) else Query([(n2, v2), (n3, v3)])
  {
    if v1.Some? {
      ThreeParams(n1, v1.value, n2, v2, n3, v3);
      Regroup(prefix, Param(n1, v1.value), Param(n2, v2), Param(n3, v3));
    } else {
      TwoParams(n2, v2, n3, v3);
      assert prefix + "" == prefix;
    }
  }

  lemma Regroup(prefix: string, a: string, b: string, c: string)
    ensures prefix + (a + "&") + b + "&" + c == prefix + (a + "&" + b + "&" + c)
  {
  }
}