/** The parts of the older entity shapes that the older mappers convert: the
    url-addressed image, time to beat, the reduced platform, company and
    website records. */
module LegacyConversion {
  import opened Results
  import opened Lists
  import opened Entities
  import GameConversion

  function ConvertUrlImage(i: UrlImage): (r: UrlImage)
    ensures r == i
  {
    UrlImage(width := i.width, height := i.height, url := i.url)
  }

  function UrlImages(s: seq<UrlImage>): (r: seq<UrlImage>)
    ensures r == s
  {
    GameConversion.MapCopies(s, ConvertUrlImage);
    Map(s, ConvertUrlImage)
  }

  function ConvertTimeToBeat(t: TimeToBeat): (r: TimeToBeat)
    ensures r == t
  {
    TimeToBeat(completely := t.completely, hastily := t.hastily, normally := t.normally)
  }

  function ConvertPlatform(p: AbbreviatedPlatform): (r: AbbreviatedPlatform)
    ensures r == p
  {
    AbbreviatedPlatform(abbreviation := p.abbreviation)
  }

  function ConvertCompany(c: NamedCompany): (r: NamedCompany)
    ensures r == c
  {
    NamedCompany(name := c.name, developedGames := c.developedGames)
  }

  function ConvertCompanyRoles(c: CompanyRoles): (r: CompanyRoles)
    ensures r == c
  {
    CompanyRoles(company := ConvertCompany(c.company), isDeveloper := c.isDeveloper,
                 isPublisher := c.isPublisher, isPorter := c.isPorter)
  }

  /** The category is looked up by name; the url and the trust flag are
      passed on, so a converted website equals its input. */
  function ConvertWebsite(w: TrustedWebsite, k: Constants): (r: Result<TrustedWebsite, MappingError>)
    ensures r.Ok? <==> w.category in k.websiteCategories
    ensures r.Ok? ==> r.value == w
  {
    var category :- ValueOf(w.category, k.websiteCategories);
    Ok(TrustedWebsite(url := w.url, category := category, isTrusted := w.isTrusted))
  }

  function Websites(s: seq<TrustedWebsite>, k: Constants): (r: Result<seq<TrustedWebsite>, MappingError>)
    ensures r.Ok? <==> forall w :: w in s ==> w.category in k.websiteCategories
    ensures r.Ok? ==> r.value == s
  {
    var f := (w: TrustedWebsite) => ConvertWebsite(w, k);
    GameConversion.MapAllCopies(s, f);
    assert (forall i :: 0 <= i < |s| ==> f(s[i]).Ok?) <==> (forall w :: w in s ==> w.category in k.websiteCategories);
    MapAll(s, f)
  }
}

/** The older igdb data store's conversions between the data layer's game
    and the api entity, and from api results and errors to data store
    results. The two directions are written out separately in the source;
    they convert the same fields the same way. */
module IgdbMappings {
  import opened Results
  import opened Lists
  import opened Entities
  import GameConversion
  import LegacyConversion

  /** One direction of the conversion, in constructor-argument order. */
  function Convert(g: LegacyGame, k: Constants): (r: Result<LegacyGame, MappingError>)
    ensures r.Ok? <==> LegacyConforms(g, k)
    ensures r.Ok? ==> r.value == g
  {
    var ageRatings :- GameConversion.AgeRatings(g.ageRatings, k);
    var websites :- LegacyConversion.Websites(g.websites, k);
    GameConversion.MapCopies(g.platforms, LegacyConversion.ConvertPlatform);
    GameConversion.MapCopies(g.involvedCompanies, LegacyConversion.ConvertCompanyRoles);
    Ok(LegacyGame(
      id := g.id,
      hypeCount := g.hypeCount,
      releaseDate := g.releaseDate,
      criticsRating := g.criticsRating,
      usersRating := g.usersRating,
      totalRating := g.totalRating,
      popularity := g.popularity,
      name := g.name,
      summary := g.summary,
      storyline := g.storyline,
      cover := LegacyConversion.ConvertUrlImage(g.cover),
      timeToBeat := LegacyConversion.ConvertTimeToBeat(g.timeToBeat),
      ageRatings := ageRatings,
      artworks := LegacyConversion.UrlImages(g.artworks),
      screenshots := LegacyConversion.UrlImages(g.screenshots),
      genres := GameConversion.NamedList(g.genres),
      platforms := Map(g.platforms, LegacyConversion.ConvertPlatform),
      playerPerspectives := GameConversion.NamedList(g.playerPerspectives),
      themes := GameConversion.NamedList(g.themes),
      modes := GameConversion.NamedList(g.modes),
      keywords := GameConversion.NamedList(g.keywords),
      involvedCompanies := Map(g.involvedCompanies, LegacyConversion.ConvertCompanyRoles),
      websites := websites,
      similarGames := g.similarGames))
  }

  /** `toApiGame`. */
  function ToApiGame(dataGame: LegacyGame, api: Constants): (r: Result<LegacyGame, MappingError>)
    ensures r.Ok? <==> LegacyConforms(dataGame, api)
    ensures r.Ok? ==> r.value == dataGame
  {
    Convert(dataGame, api)
  }

  /** `toDataGame`. */
  function ToDataGame(apiGame: LegacyGame, data: Constants): (r: Result<LegacyGame, MappingError>)
    ensures r.Ok? <==> LegacyConforms(apiGame, data)
    ensures r.Ok? ==> r.value == apiGame
  {
    Convert(apiGame, data)
  }

  /** A data game sent to the api side and back is the same game, field
      for field, whenever the api side knows its constants. */
  lemma RoundTrip(g: LegacyGame, data: Constants, api: Constants)
    requires LegacyConforms(g, data)
    ensures ToApiGame(g, api).Ok? <==> LegacyConforms(g, api)
    ensures ToApiGame(g, api).Ok? ==> ToDataGame(ToApiGame(g, api).value, data) == Ok(g)
  {
  }

  /** `toDataGames`. */
  function ToDataGames(apiGames: seq<LegacyGame>, data: Constants): (r: Result<seq<LegacyGame>, MappingError>)
    ensures r.Ok? <==> forall i :: 0 <= i < |apiGames| ==> LegacyConforms(apiGames[i], data)
    ensures r.Ok? ==> r.value == apiGames
  {
    var r := MapAll(apiGames, (g: LegacyGame) => ToDataGame(g, data));
    assert r.Ok? ==> r.value == apiGames;
    r
  }

  /** An api failure as the api layer classifies it. The four kinds and the
      messages are computed by helpers that are given here as fields. */
  datatype ApiError = ApiError(
    isServerError: bool,
    isHttpError: bool,
    isNetworkError: bool,
    isUnknownError: bool,
    httpErrorMessage: string,
    networkErrorMessage: string,
    unknownErrorMessage: string)

  datatype DataError =
    | ServiceUnavailable
    | ClientError(message: string)
    | NetworkError(message: string)
    | Unknown(message: string)

  /** `toDataError`: the kinds are tried in the order server, http, network,
      unknown; an error of no kind throws. */
  function ToDataError(e: ApiError): (r: Result<DataError, MappingError>)
    ensures r.Err? <==> !e.isServerError && !e.isHttpError && !e.isNetworkError && !e.isUnknownError
    ensures r.Err? ==> r.error == UnmappableApiError
    ensures e.isServerError ==> r == Ok(ServiceUnavailable)
    ensures r == Ok(ServiceUnavailable) ==> e.isServerError
    ensures r.Ok? && r.value.ClientError? <==> !e.isServerError && e.isHttpError
    ensures r.Ok? && r.value.ClientError? ==> r.value.message == e.httpErrorMessage
    ensures r.Ok? && r.value.NetworkError? <==> !e.isServerError && !e.isHttpError && e.isNetworkError
    ensures r.Ok? && r.value.NetworkError? ==> r.value.message == e.networkErrorMessage
    ensures r.Ok? && r.value.Unknown? <==> !e.isServerError && !e.isHttpError && !e.isNetworkError && e.isUnknownError
    ensures r.Ok? && r.value.Unknown? ==> r.value.message == e.unknownErrorMessage
  {
    if e.isServerError then Ok(ServiceUnavailable)
    else if e.isHttpError then Ok(ClientError(e.httpErrorMessage))
    else if e.isNetworkError then Ok(NetworkError(e.networkErrorMessage))
    else if e.isUnknownError then Ok(Unknown(e.unknownErrorMessage))
    else Err(UnmappableApiError)
  }

  /** `toDataStoreResult`: a success maps the games, a failure maps the
      error. The outer result is what the mapping itself throws. */
  function ToDataStoreResult(result: Result<seq<LegacyGame>, ApiError>, data: Constants)
    : (r: Result<Result<seq<LegacyGame>, DataError>, MappingError>)
    ensures result.Ok? ==> (r.Ok? <==> forall i :: 0 <= i < |result.value| ==> LegacyConforms(result.value[i], data))
    ensures result.Ok? && r.Ok? ==> r.value == Ok(result.value)
    ensures result.Err? ==> (r.Ok? <==> ToDataError(result.error).Ok?)
    ensures result.Err? && r.Ok? ==> r.value == Err(ToDataError(result.error).value)
  {
    match result
    case Ok(games) =>
      var mapped :- ToDataGames(games, data);
      Ok(Ok(mapped))
    case Err(e) =>
      var error :- ToDataError(e);
      Ok(Err(error))
  }
}

/** The data layer's use-case mapper from the data game to the domain game:
    one way, and only the fields the domain game keeps. */
module UseCaseGameMapper {
  import opened Results
  import opened Lists
  import opened Entities
  import GameConversion
  import LegacyConversion

  /** `mapToDomainGame`. */
  function MapToDomainGame(game: ProjectedGame, domain: Constants): (r: Result<ProjectedGame, MappingError>)
    ensures r.Ok? <==> ProjectedConforms(game, domain)
    ensures r.Ok? ==> r.value == game
  {
    var ageRatings :- GameConversion.AgeRatings(game.ageRatings, domain);
    var websites :- LegacyConversion.Websites(game.websites, domain);
    GameConversion.MapCopies(game.platforms, LegacyConversion.ConvertPlatform);
    GameConversion.MapCopies(game.involvedCompanies, LegacyConversion.ConvertCompanyRoles);
    Ok(ProjectedGame(
      id := game.id,
      hypeCount := game.hypeCount,
      releaseDate := game.releaseDate,
      criticsRating := game.criticsRating,
      usersRating := game.usersRating,
      totalRating := game.totalRating,
      name := game.name,
      summary := game.summary,
      storyline := game.storyline,
      cover := MapNullable(game.cover, GameConversion.ConvertImage),
      ageRatings := ageRatings,
      artworks := GameConversion.Images(game.artworks),
      screenshots := GameConversion.Images(game.screenshots),
      genres := GameConversion.NamedList(game.genres),
      platforms := Map(game.platforms, LegacyConversion.ConvertPlatform),
      playerPerspectives := GameConversion.NamedList(game.playerPerspectives),
      themes := GameConversion.NamedList(game.themes),
      modes := GameConversion.NamedList(game.modes),
      keywords := GameConversion.NamedList(game.keywords),
      involvedCompanies := Map(game.involvedCompanies, LegacyConversion.ConvertCompanyRoles),
      websites := websites,
      similarGames := game.similarGames))
  }

  /** `mapToDomainGames`. */
  function MapToDomainGames(games: seq<ProjectedGame>, domain: Constants): (r: Result<seq<ProjectedGame>, MappingError>)
    ensures r.Ok? <==> forall i :: 0 <= i < |games| ==> ProjectedConforms(games[i], domain)
    ensures r.Ok? ==> |r.value| == |games|
    ensures r.Ok? ==> forall i :: 0 <= i < |games| ==> r.value[i] == games[i]
  {
    MapAll(games, (g: ProjectedGame) => MapToDomainGame(g, domain))
  }
}
