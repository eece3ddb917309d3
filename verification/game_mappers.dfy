/** The conversion every layer's game mapper performs: a field-by-field copy
    of the game into the other layer's classes, with each enum looked up by
    name in the other layer. */
module GameConversion {
  import opened Results
  import opened Lists
  import opened Entities

  function ConvertImage(i: Image): (r: Image)
    ensures r == i
  {
    Image(id := i.id, width := i.width, height := i.height)
  }

  function ConvertReleaseDate(d: ReleaseDate, k: Constants): (r: Result<ReleaseDate, MappingError>)
    ensures r.Ok? <==> d.category in k.releaseDateCategories
    ensures r.Ok? ==> r.value == d
  {
    var category :- ValueOf(d.category, k.releaseDateCategories);
    Ok(ReleaseDate(date := d.date, year := d.year, category := category))
  }

  /** The category is looked up before the type. */
  function ConvertAgeRating(a: AgeRating, k: Constants): (r: Result<AgeRating, MappingError>)
    ensures r.Ok? <==> a.category in k.ageRatingCategories && a.ratingType in k.ageRatingTypes
    ensures r.Ok? ==> r.value == a
    ensures a.category !in k.ageRatingCategories ==> r == Err(NoSuchConstant(a.category))
  {
    var category :- ValueOf(a.category, k.ageRatingCategories);
    var ratingType :- ValueOf(a.ratingType, k.ageRatingTypes);
    Ok(AgeRating(category := category, ratingType := ratingType))
  }

  function ConvertVideo(v: Video): (r: Video)
    ensures r == v
  {
    Video(id := v.id, name := v.name)
  }

  function ConvertNamed(n: Named): (r: Named)
    ensures r == n
  {
    Named(name := n.name)
  }

  function ConvertPlatform(p: Platform): (r: Platform)
    ensures r == p
  {
    Platform(abbreviation := p.abbreviation, name := p.name)
  }

  function ConvertCompany(c: Company): (r: Company)
    ensures r == c
  {
    Company(id := c.id, name := c.name, websiteUrl := c.websiteUrl,
            logo := MapNullable(c.logo, ConvertImage), developedGames := c.developedGames)
  }

  function ConvertInvolvedCompany(c: InvolvedCompany): (r: InvolvedCompany)
    ensures r == c
  {
    InvolvedCompany(company := ConvertCompany(c.company), isDeveloper := c.isDeveloper,
                    isPublisher := c.isPublisher, isPorter := c.isPorter, isSupporting := c.isSupporting)
  }

  function ConvertWebsite(w: Website, k: Constants): (r: Result<Website, MappingError>)
    ensures r.Ok? <==> w.category in k.websiteCategories
    ensures r.Ok? ==> r.value == w
  {
    var category :- ValueOf(w.category, k.websiteCategories);
    Ok(Website(id := w.id, url := w.url, category := category))
  }

  /** A list copied element by element is the same list. */
  lemma MapCopies<T>(s: seq<T>, f: T -> T)
    requires forall i :: 0 <= i < |s| ==> f(s[i]) == s[i]
    ensures Map(s, f) == s
  {
  }

  /** A list looked up element by element is the same list, when every
      lookup succeeds. */
  lemma MapAllCopies<T>(s: seq<T>, f: T -> Result<T, MappingError>)
    requires forall i :: 0 <= i < |s| ==> f(s[i]).Ok? ==> f(s[i]).value == s[i]
    ensures MapAll(s, f).Ok? ==> MapAll(s, f).value == s
  {
  }

  function ReleaseDates(s: seq<ReleaseDate>, k: Constants): (r: Result<seq<ReleaseDate>, MappingError>)
    ensures r.Ok? <==> forall d :: d in s ==> d.category in k.releaseDateCategories
    ensures r.Ok? ==> r.value == s
  {
    var f := (d: ReleaseDate) => ConvertReleaseDate(d, k);
    MapAllCopies(s, f);
    assert (forall i :: 0 <= i < |s| ==> f(s[i]).Ok?) <==> (forall d :: d in s ==> d.category in k.releaseDateCategories);
    MapAll(s, f)
  }

  function AgeRatings(s: seq<AgeRating>, k: Constants): (r: Result<seq<AgeRating>, MappingError>)
    ensures r.Ok? <==> forall a :: a in s ==> a.category in k.ageRatingCategories && a.ratingType in k.ageRatingTypes
    ensures r.Ok? ==> r.value == s
  {
    var f := (a: AgeRating) => ConvertAgeRating(a, k);
    MapAllCopies(s, f);
    assert (forall i :: 0 <= i < |s| ==> f(s[i]).Ok?) <==>
           (forall a :: a in s ==> a.category in k.ageRatingCategories && a.ratingType in k.ageRatingTypes);
    MapAll(s, f)
  }

  function Websites(s: seq<Website>, k: Constants): (r: Result<seq<Website>, MappingError>)
    ensures r.Ok? <==> forall w :: w in s ==> w.category in k.websiteCategories
    ensures r.Ok? ==> r.value == s
  {
    var f := (w: Website) => ConvertWebsite(w, k);
    MapAllCopies(s, f);
    assert (forall i :: 0 <= i < |s| ==> f(s[i]).Ok?) <==> (forall w :: w in s ==> w.category in k.websiteCategories);
    MapAll(s, f)
  }

  function Images(s: seq<Image>): (r: seq<Image>)
    ensures r == s
  {
    MapCopies(s, ConvertImage);
    Map(s, ConvertImage)
  }

  function NamedList(s: seq<Named>): (r: seq<Named>)
    ensures r == s
  {
    MapCopies(s, ConvertNamed);
    Map(s, ConvertNamed)
  }

  /** The whole game, in the order the mappers pass the constructor
      arguments; the first enum that the other layer lacks ends it. */
  function Convert(g: Game, k: Constants): (r: Result<Game, MappingError>)
    ensures r.Ok? <==> Conforms(g, k)
    ensures r.Ok? ==> r.value == g
    ensures g.category !in k.categories ==> r == Err(NoSuchConstant(g.category))
  {
    var category :- ValueOf(g.category, k.categories);
    var releaseDates :- ReleaseDates(g.releaseDates, k);
    var ageRatings :- AgeRatings(g.ageRatings, k);
    var websites :- Websites(g.websites, k);
    MapCopies(g.videos, ConvertVideo);
    MapCopies(g.platforms, ConvertPlatform);
    MapCopies(g.involvedCompanies, ConvertInvolvedCompany);
    Ok(Game(
      id := g.id,
      followerCount := g.followerCount,
      hypeCount := g.hypeCount,
      releaseDate := g.releaseDate,
      criticsRating := g.criticsRating,
      usersRating := g.usersRating,
      totalRating := g.totalRating,
      name := g.name,
      summary := g.summary,
      storyline := g.storyline,
      category := category,
      cover := MapNullable(g.cover, ConvertImage),
      releaseDates := releaseDates,
      ageRatings := ageRatings,
      videos := Map(g.videos, ConvertVideo),
      artworks := Images(g.artworks),
      screenshots := Images(g.screenshots),
      genres := NamedList(g.genres),
      platforms := Map(g.platforms, ConvertPlatform),
      playerPerspectives := NamedList(g.playerPerspectives),
      themes := NamedList(g.themes),
      modes := NamedList(g.modes),
      keywords := NamedList(g.keywords),
      involvedCompanies := Map(g.involvedCompanies, ConvertInvolvedCompany),
      websites := websites,
      similarGames := g.similarGames))
  }
}

/** The domain layer's mapper to and from the database entity. The database
    entity stores a follower count that this mapper passes in neither
    direction, so it comes out absent both ways. */
module DbGameMapper {
  import opened Results
  import opened Entities
  import GameConversion

  /** `mapToDomainGame`. */
  function MapToDomainGame(dbGame: Game, domain: Constants): (r: Result<Game, MappingError>)
    ensures r.Ok? <==> Conforms(dbGame, domain)
    ensures r.Ok? ==> r.value == dbGame.(followerCount := None)
  {
    var g :- GameConversion.Convert(dbGame, domain);
    Ok(g.(followerCount := None))
  }

  /** `mapToDatabaseGame`. */
  function MapToDatabaseGame(domainGame: Game, database: Constants): (r: Result<Game, MappingError>)
    ensures r.Ok? <==> Conforms(domainGame, database)
    ensures r.Ok? ==> r.value == domainGame.(followerCount := None)
  {
    var g :- GameConversion.Convert(domainGame, database);
    Ok(g.(followerCount := None))
  }

  /** A domain game survives the trip through the database exactly when the
      database knows its enum constants and it has no follower count. */
  lemma RoundTrip(g: Game, domain: Constants, database: Constants)
    requires Conforms(g, domain)
    ensures MapToDatabaseGame(g, database).Ok? <==> Conforms(g, database)
    ensures MapToDatabaseGame(g, database).Ok? ==>
      (MapToDomainGame(MapToDatabaseGame(g, database).value, domain) == Ok(g) <==> g.followerCount.None?)
  {
    if MapToDatabaseGame(g, database).Ok? {
      var db := MapToDatabaseGame(g, database).value;
      assert Conforms(db, domain);
    }
  }

  /** `mapToDomainGames`. */
  function MapToDomainGames(dbGames: seq<Game>, domain: Constants): (r: Result<seq<Game>, MappingError>)
    ensures r.Ok? <==> forall i :: 0 <= i < |dbGames| ==> Conforms(dbGames[i], domain)
    ensures r.Ok? ==> |r.value| == |dbGames|
    ensures r.Ok? ==> forall i :: 0 <= i < |dbGames| ==> r.value[i] == dbGames[i].(followerCount := None)
  {
    MapAll(dbGames, (g: Game) => MapToDomainGame(g, domain))
  }

  /** `mapToDatabaseGames`. */
  function MapToDatabaseGames(domainGames: seq<Game>, database: Constants): (r: Result<seq<Game>, MappingError>)
    ensures r.Ok? <==> forall i :: 0 <= i < |domainGames| ==> Conforms(domainGames[i], database)
    ensures r.Ok? ==> |r.value| == |domainGames|
    ensures r.Ok? ==> forall i :: 0 <= i < |domainGames| ==> r.value[i] == domainGames[i].(followerCount := None)
  {
    MapAll(domainGames, (g: Game) => MapToDatabaseGame(g, database))
  }

  /** Saving a list of games and reading it back gives the same list, when
      both layers know the games' constants and none has a follower count. */
  lemma ListRoundTrip(games: seq<Game>, domain: Constants, database: Constants)
    requires forall i :: 0 <= i < |games| ==> Conforms(games[i], domain) && Conforms(games[i], database)
    requires forall i :: 0 <= i < |games| ==> games[i].followerCount.None?
    ensures MapToDatabaseGames(games, database).Ok?
    ensures MapToDomainGames(MapToDatabaseGames(games, database).value, domain) == Ok(games)
  {
    var f := (g: Game) => MapToDatabaseGame(g, database);
    var h := (g: Game) => MapToDomainGame(g, domain);
    forall i | 0 <= i < |games|
      ensures f(games[i]).Ok? && h(f(games[i]).value) == Ok(games[i])
    {
      RoundTrip(games[i], domain, database);
    }
    MapAllRoundTrip(games, f, h);
  }
}

/** The database module's mapper between the data layer's game and the
    database entity. Both sides carry the follower count. */
module DatabaseGameMapper {
  import opened Results
  import opened Entities
  import GameConversion

  /** `mapToDatabaseGame`. */
  function MapToDatabaseGame(dataGame: Game, database: Constants): (r: Result<Game, MappingError>)
    ensures r.Ok? <==> Conforms(dataGame, database)
    ensures r.Ok? ==> r.value == dataGame
  {
    GameConversion.Convert(dataGame, database)
  }

  /** `mapToDataGame`. */
  function MapToDataGame(databaseGame: Game, data: Constants): (r: Result<Game, MappingError>)
    ensures r.Ok? <==> Conforms(databaseGame, data)
    ensures r.Ok? ==> r.value == databaseGame
  {
    GameConversion.Convert(databaseGame, data)
  }

  /** `mapToDataCompany`: a null logo stays null. */
  function MapToDataCompany(company: Company): (r: Company)
    ensures r.id == company.id && r.name == company.name && r.websiteUrl == company.websiteUrl
    ensures r.developedGames == company.developedGames
    ensures r.logo.None? <==> company.logo.None?
    ensures r == company
  {
    GameConversion.ConvertCompany(company)
  }

  /** A data game read back from the database is the game that was saved,
      whenever the database knows its constants. */
  lemma RoundTrip(g: Game, data: Constants, database: Constants)
    requires Conforms(g, data)
    ensures MapToDatabaseGame(g, database).Ok? <==> Conforms(g, database)
    ensures MapToDatabaseGame(g, database).Ok? ==>
      MapToDataGame(MapToDatabaseGame(g, database).value, data) == Ok(g)
  {
  }

  /** `mapToDatabaseGames`. */
  function MapToDatabaseGames(dataGames: seq<Game>, database: Constants): (r: Result<seq<Game>, MappingError>)
    ensures r.Ok? <==> forall i :: 0 <= i < |dataGames| ==> Conforms(dataGames[i], database)
    ensures r.Ok? ==> r.value == dataGames
  {
    var r := MapAll(dataGames, (g: Game) => MapToDatabaseGame(g, database));
    assert r.Ok? ==> r.value == dataGames;
    r
  }

  /** `mapToDataGames`. */
  function MapToDataGames(databaseGames: seq<Game>, data: Constants): (r: Result<seq<Game>, MappingError>)
    ensures r.Ok? <==> forall i :: 0 <= i < |databaseGames| ==> Conforms(databaseGames[i], data)
    ensures r.Ok? ==> r.value == databaseGames
  {
    var r := MapAll(databaseGames, (g: Game) => MapToDataGame(g, data));
    assert r.Ok? ==> r.value == databaseGames;
    r
  }

  lemma ListRoundTrip(games: seq<Game>, data: Constants, database: Constants)
    requires forall i :: 0 <= i < |games| ==> Conforms(games[i], data) && Conforms(games[i], database)
    ensures MapToDatabaseGames(games, database).Ok?
    ensures MapToDataGames(MapToDatabaseGames(games, database).value, data) == Ok(games)
  {
  }
}

/** The domain layer's mapper from the igdb api entity; one way only. */
module IgdbGameMapper {
  import opened Results
  import opened Entities
  import GameConversion

  /** `mapToDomainGame`: the follower count is passed on. */
  function MapToDomainGame(apiGame: Game, domain: Constants): (r: Result<Game, MappingError>)
    ensures r.Ok? <==> Conforms(apiGame, domain)
    ensures r.Ok? ==> r.value == apiGame
    ensures apiGame.category !in domain.categories ==> r == Err(NoSuchConstant(apiGame.category))
  {
    GameConversion.Convert(apiGame, domain)
  }

  /** `mapToDomainGames`. */
  function MapToDomainGames(apiGames: seq<Game>, domain: Constants): (r: Result<seq<Game>, MappingError>)
    ensures r.Ok? <==> forall i :: 0 <= i < |apiGames| ==> Conforms(apiGames[i], domain)
    ensures r.Ok? ==> r.value == apiGames
  {
    var r := MapAll(apiGames, (g: Game) => MapToDomainGame(g, domain));
    assert r.Ok? ==> r.value == apiGames;
    r
  }
}

/** The igdb api module's mapper to the data layer's game; one way only. */
module ApiGameMapper {
  import opened Results
  import opened Entities
  import GameConversion

  /** `mapToDataGame`. */
  function MapToDataGame(apiGame: Game, data: Constants): (r: Result<Game, MappingError>)
    ensures r.Ok? <==> Conforms(apiGame, data)
    ensures r.Ok? ==> r.value == apiGame
    ensures r.Ok? ==> (r.value.cover.None? <==> apiGame.cover.None?)
  {
    GameConversion.Convert(apiGame, data)
  }

  /** `mapToDataGames`. */
  function MapToDataGames(apiGames: seq<Game>, data: Constants): (r: Result<seq<Game>, MappingError>)
    ensures r.Ok? <==> forall i :: 0 <= i < |apiGames| ==> Conforms(apiGames[i], data)
    ensures r.Ok? ==> |r.value| == |apiGames|
    ensures r.Ok? ==> forall i :: 0 <= i < |apiGames| ==> r.value[i] == apiGames[i]
  {
    MapAll(apiGames, (g: Game) => MapToDataGame(g, data))
  }
}
