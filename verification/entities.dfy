/** The game entity and its parts, as the storage, network and domain layers
    declare them. Each layer has its own copy of every class with the same
    fields; the copies differ only in which enum they name. Here the copies
    share one datatype, an enum constant is its name, and a layer is the set
    of constant names each of its enums declares. */
module Entities {
  import opened Results

  /** The constant names of one layer's enums. */
  datatype Constants = Constants(
    categories: set<string>,
    releaseDateCategories: set<string>,
    ageRatingCategories: set<string>,
    ageRatingTypes: set<string>,
    websiteCategories: set<string>)

  /** What a mapper throws instead of returning: `valueOf` finds no constant
      of that name, or an api error matches none of the known kinds. */
  datatype MappingError = NoSuchConstant(name: string) | UnmappableApiError

  /** `Enum.valueOf(name)`. */
  function ValueOf(name: string, constants: set<string>): (r: Result<string, MappingError>)
    ensures r.Ok? <==> name in constants
    ensures r.Ok? ==> r.value == name
    ensures r.Err? ==> r.error == NoSuchConstant(name)
  {
    if name in constants then Ok(name) else Err(NoSuchConstant(name))
  }

  datatype Image = Image(id: string, width: Option<int>, height: Option<int>)

  datatype ReleaseDate = ReleaseDate(date: Option<int>, year: Option<int>, category: string)

  datatype AgeRating = AgeRating(category: string, ratingType: string)

  datatype Video = Video(id: string, name: Option<string>)

  /** Genres, player perspectives, themes, modes and keywords: a name each. */
  datatype Named = Named(name: string)

  datatype Platform = Platform(abbreviation: string, name: string)

  datatype Company = Company(
    id: int,
    name: string,
    websiteUrl: string,
    logo: Option<Image>,
    developedGames: seq<int>)

  datatype InvolvedCompany = InvolvedCompany(
    company: Company,
    isDeveloper: bool,
    isPublisher: bool,
    isPorter: bool,
    isSupporting: bool)

  datatype Website = Website(id: int, url: string, category: string)

  /** The game of the domain, database and igdb layers. */
  datatype Game = Game(
    id: int,
    followerCount: Option<int>,
    hypeCount: Option<int>,
    releaseDate: Option<int>,
    criticsRating: Option<real>,
    usersRating: Option<real>,
    totalRating: Option<real>,
    name: string,
    summary: Option<string>,
    storyline: Option<string>,
    category: string,
    cover: Option<Image>,
    releaseDates: seq<ReleaseDate>,
    ageRatings: seq<AgeRating>,
    videos: seq<Video>,
    artworks: seq<Image>,
    screenshots: seq<Image>,
    genres: seq<Named>,
    platforms: seq<Platform>,
    playerPerspectives: seq<Named>,
    themes: seq<Named>,
    modes: seq<Named>,
    keywords: seq<Named>,
    involvedCompanies: seq<InvolvedCompany>,
    websites: seq<Website>,
    similarGames: seq<int>)

  /** Every enum constant the game names belongs to the layer. */
  predicate Conforms(g: Game, k: Constants) {
    g.category in k.categories &&
    (forall d :: d in g.releaseDates ==> d.category in k.releaseDateCategories) &&
    (forall a :: a in g.ageRatings ==> a.category in k.ageRatingCategories && a.ratingType in k.ageRatingTypes) &&
    (forall w :: w in g.websites ==> w.category in k.websiteCategories)
  }

  // The older entity shapes: the api/data pair of the igdb data store and
  // the projected game of the data layer's use cases.

  /** An image addressed by url rather than by id. */
  datatype UrlImage = UrlImage(width: Option<int>, height: Option<int>, url: string)

  datatype TimeToBeat = TimeToBeat(completely: Option<int>, hastily: Option<int>, normally: Option<int>)

  datatype AbbreviatedPlatform = AbbreviatedPlatform(abbreviation: string)

  /** A company reduced to its name and its games. */
  datatype NamedCompany = NamedCompany(name: string, developedGames: seq<int>)

  datatype CompanyRoles = CompanyRoles(
    company: NamedCompany,
    isDeveloper: bool,
    isPublisher: bool,
    isPorter: bool)

  datatype TrustedWebsite = TrustedWebsite(url: string, category: string, isTrusted: bool)

  /** The game of the older igdb data store, on both its api and data side. */
  datatype LegacyGame = LegacyGame(
    id: int,
    hypeCount: Option<int>,
    releaseDate: Option<int>,
    criticsRating: Option<real>,
    usersRating: Option<real>,
    totalRating: Option<real>,
    popularity: Option<real>,
    name: string,
    summary: Option<string>,
    storyline: Option<string>,
    cover: UrlImage,
    timeToBeat: TimeToBeat,
    ageRatings: seq<AgeRating>,
    artworks: seq<UrlImage>,
    screenshots: seq<UrlImage>,
    genres: seq<Named>,
    platforms: seq<AbbreviatedPlatform>,
    playerPerspectives: seq<Named>,
    themes: seq<Named>,
    modes: seq<Named>,
    keywords: seq<Named>,
    involvedCompanies: seq<CompanyRoles>,
    websites: seq<TrustedWebsite>,
    similarGames: seq<int>)

  predicate LegacyConforms(g: LegacyGame, k: Constants) {
    (forall a :: a in g.ageRatings ==> a.category in k.ageRatingCategories && a.ratingType in k.ageRatingTypes) &&
    (forall w :: w in g.websites ==> w.category in k.websiteCategories)
  }

  /** The game the data layer's use cases hand to the domain: no category,
      release dates or videos, platforms by abbreviation, companies by
      name. */
  datatype ProjectedGame = ProjectedGame(
    id: int,
    hypeCount: Option<int>,
    releaseDate: Option<int>,
    criticsRating: Option<real>,
    usersRating: Option<real>,
    totalRating: Option<real>,
    name: string,
    summary: Option<string>,
    storyline: Option<string>,
    cover: Option<Image>,
    ageRatings: seq<AgeRating>,
    artworks: seq<Image>,
    screenshots: seq<Image>,
    genres: seq<Named>,
    platforms: seq<AbbreviatedPlatform>,
    playerPerspectives: seq<Named>,
    themes: seq<Named>,
    modes: seq<Named>,
    keywords: seq<Named>,
    involvedCompanies: seq<CompanyRoles>,
    websites: seq<TrustedWebsite>,
    similarGames: seq<int>)

  predicate ProjectedConforms(g: ProjectedGame, k: Constants) {
    (forall a :: a in g.ageRatings ==> a.category in k.ageRatingCategories && a.ratingType in k.ageRatingTypes) &&
    (forall w :: w in g.websites ==> w.category in k.websiteCategories)
  }
}
