/**
 * The scraper handlers of the main handler package
 * (app/handler/scrapper.go): a TheMovieDB movie mapped onto the catalogue's
 * show record, a movie-only title search, and the DuckDuckGo scraper that
 * answers the search engine's results as decoded. Unlike the scrapper
 * package, these return without writing when the request itself fails, so
 * net/http answers with an empty 200 response.
 */
module HandlerScrapper {
  import opened Wrappers
  import opened Text
  import opened Decimal
  import opened Tmdb
  import opened Http
  import opened ScriptSearch
  import ScrapperSearch
  import ScrapperImage

  const PosterPrefix := "https://image.tmdb.org/t/p/w370_and_h556_bestv2"
  const BannerPrefix := "https://image.tmdb.org/t/p/original"

  datatype NamedId = NamedId(id: int64, name: string)
  datatype Company = Company(id: int64, logoPath: string, name: string, originCountry: string)
  datatype CountryCode = CountryCode(iso31661: string, name: string)
  datatype LanguageCode = LanguageCode(iso6391: string, name: string)

  /** The decoded movie; `belongs_to_collection`, an untyped value, is not part of this model. */
  datatype TheMovieDB = TheMovieDB(
    adult: bool, backdropPath: string, budget: int64, genres: seq<NamedId>, homepage: string,
    id: int64, imdbId: string, originalLanguage: string, originalTitle: string, overview: string,
    popularity: Float64, posterPath: string, productionCompanies: seq<Company>,
    productionCountries: seq<CountryCode>, releaseDate: string, revenue: int64, runtime: int64,
    spokenLanguages: seq<LanguageCode>, status: string, tagline: string, title: string,
    video: bool, voteAverage: Float64, voteCount: int64)

  const ZeroMovieDB := TheMovieDB(false, "", 0, [], "", 0, "", "", "", "", Float64(0), "", [], [], "", 0, 0,
                                  [], "", "", "", false, Float64(0), 0)

  /** The catalogue's show record, with the fields this handler sets. */
  datatype Show = Show(
    title: string, actors: string, awards: string, boxOffice: string, country: string, dvd: string,
    director: string, genre: string, language: string, plot: string, poster: string, rated: string,
    released: string, response: string, runtime: string, showType: string, website: string,
    writer: string, year: string, imdbId: string, imdbRating: string, imdbVotes: string,
    banner: string, trailer: string, playerURL: string)

  /** The fields the provider has no value for, which the mapping leaves empty. */
  predicate BlankFields(s: Show) {
    && s.actors == "" && s.awards == "" && s.boxOffice == "" && s.country == ""
    && s.dvd == "" && s.director == "" && s.genre == "" && s.rated == ""
    && s.response == "" && s.writer == "" && s.imdbRating == "" && s.imdbVotes == ""
    && s.trailer == "" && s.playerURL == ""
  }

  /**
   * TheMovieDB movie as a show. `releasedYear` stands for the year the handler
   * derives from the release date, which this model does not compute.
   * Nothing carried over is lost: both image paths come back by removing the
   * URL prefixes, and runtime and year parse back to the numbers.
   */
  function ToShow(m: TheMovieDB, releasedYear: int64): (s: Show)
    ensures BlankFields(s) && s.showType == "movie"
    ensures s.title == m.title && s.language == m.originalLanguage && s.plot == m.overview
    ensures s.released == m.releaseDate && s.website == m.homepage && s.imdbId == m.imdbId
    ensures StripPrefix(s.poster, PosterPrefix) == Some(m.posterPath)
    ensures StripPrefix(s.banner, BannerPrefix) == Some(m.backdropPath)
    ensures Atoi(s.runtime) == Some(m.runtime) && Atoi(s.year) == Some(releasedYear)
    ensures s.runtime == Itoa(m.runtime) && s.year == Itoa(releasedYear)
  {
    StripPrefixJoin(PosterPrefix, m.posterPath);
    StripPrefixJoin(BannerPrefix, m.backdropPath);
    AtoiItoa(m.runtime);
    AtoiItoa(releasedYear);
    Show(
      title := m.title,
      actors := "",
      awards := "",
      boxOffice := "",
      country := "",
      dvd := "",
      director := "",
      genre := "",
      language := m.originalLanguage,
      plot := m.overview,
      poster := PosterPrefix + m.posterPath,
      rated := "",
      released := m.releaseDate,
      response := "",
      runtime := Itoa(m.runtime),
      showType := "movie",
      website := m.homepage,
      writer := "",
      year := Itoa(releasedYear),
      imdbId := m.imdbId,
      imdbRating := "",
      imdbVotes := "",
      banner := BannerPrefix + m.backdropPath,
      trailer := "",
      playerURL := "")
  }

  /** The detail request: the id in the path and nothing appended. */
  function MovieURL(tmdbID: string, key: string): (url: string)
    ensures '?' !in tmdbID && '&' !in key ==> ParseApiURL(url) == Some(ApiRequest("movie/" + tmdbID, key, ""))
  {
    var url := ApiURL("movie/" + tmdbID, key, "");
    if '?' !in tmdbID && '&' !in key then
      ParseApiURLRoundTrip("movie/" + tmdbID, key, "");
      url
    else url
  }

  /**
   * The handler: nothing written when the request fails; otherwise the decoded movie
   * (or the zero record when it does not decode) answered as a show.
   */
  function GetMovieDetail(fetch: Fetch<TheMovieDB>, releasedYear: int64): (reply: Reply<Show>)
    ensures fetch.TransportError? <==> reply.NoReply?
    ensures fetch.Received? ==> reply.Success? && reply.data.showType == "movie" && BlankFields(reply.data)
    ensures fetch.Received? && fetch.decoded.Some? ==> reply == Success(ToShow(fetch.decoded.value, releasedYear))
    ensures fetch.Received? && fetch.decoded.None? ==> reply == Success(ToShow(ZeroMovieDB, releasedYear))
    ensures fetch.Received? && fetch.decoded.None? ==> reply.Success? && reply.data.title == "" && reply.data.runtime == "0"
  {
    match fetch
    case TransportError => NoReply
    case Received(decoded) => Success(ToShow(decoded.GetOr(ZeroMovieDB), releasedYear))
  }

  datatype MovieSearchResult = MovieSearchResult(
    popularity: Float64, voteCount: int64, video: bool, posterPath: string, id: int64, adult: bool,
    backdropPath: string, originalLanguage: string, originalTitle: string, genreIds: seq<int64>,
    title: string, voteAverage: Float64, overview: string, releaseDate: string)
  datatype TMDBMovieSearch = TMDBMovieSearch(results: seq<MovieSearchResult>)

  /** The search request always asks for movies, with the key before the query. */
  function SearchMovieURL(key: string, escapedQuery: string): (url: string)
    ensures url == ScrapperSearch.SearchURL("", key, escapedQuery)
    ensures '&' !in key ==> ParseApiURL(url) == Some(ApiRequest("search/" + "movie", key, "&query=" + escapedQuery))
  {
    var url := ApiURL("search/" + "movie", key, "&query=" + escapedQuery);
    assert ScrapperSearch.SearchType("") == "movie";
    if '&' !in key then
      assert '?' !in "search/" + "movie";
      ParseApiURLRoundTrip("search/" + "movie", key, "&query=" + escapedQuery);
      url
    else url
  }

  function SearchMovie(fetch: Fetch<TMDBMovieSearch>): (reply: Reply<seq<MovieSearchResult>>)
    ensures fetch.TransportError? <==> reply.NoReply?
    ensures fetch.Received? && fetch.decoded.Some? ==> reply == Success(fetch.decoded.value.results)
    ensures fetch.Received? && fetch.decoded.None? ==> reply == Success([])
  {
    match fetch
    case TransportError => NoReply
    case Received(decoded) => Success(decoded.GetOr(TMDBMovieSearch([])).results)
  }

  /**
   * The DuckDuckGo handler: the same token rule and JSON request as the
   * scrapper package, but the decoded result list is answered unchanged.
   */
  method GetDuckDuckGoImage(escapedQuery: string, scripts: seq<string>, response: Fetch<ScrapperImage.DuckDuckGoImageResult>)
    returns (pageURL: string, jsonURL: string, reply: Reply<seq<ScrapperImage.DuckDuckGoImageResultData>>)
    ensures pageURL == ScrapperImage.DuckDuckGoPageURL(escapedQuery)
    ensures jsonURL == ScrapperImage.DuckDuckGoJsonURL(LastValue(scripts, QKey), LastValue(scripts, VqdKey))
    ensures Extract(jsonURL, QKey) == Some(LastValue(scripts, QKey))
    ensures (forall p: nat :: !KeyAt(LastValue(scripts, QKey), VqdKey, p)) ==>
      Extract(jsonURL, VqdKey) == Some(LastValue(scripts, VqdKey))
    ensures response.TransportError? <==> reply.NoReply?
    ensures response.Received? && response.decoded.Some? ==> reply == Success(response.decoded.value.results)
    ensures response.Received? && response.decoded.None? ==> reply == Success([])
  {
    pageURL := ScrapperImage.DuckDuckGoPageURL(escapedQuery);
    var vqd, q := ScanScripts(scripts);
    jsonURL := ScrapperImage.DuckDuckGoJsonURL(q, vqd);
    if response.TransportError? {
      return pageURL, jsonURL, NoReply;
    }
    reply := Success(response.decoded.GetOr(ScrapperImage.DuckDuckGoImageResult([])).results);
  }
}
