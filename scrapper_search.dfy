/**
 * Title search on TheMovieDB (app/handler/scrapper/search.go): the kind of
 * title defaults to "movie", the query goes in escaped, and the decoded
 * results are answered as they are.
 */
module ScrapperSearch {
  import opened Wrappers
  import opened Decimal
  import opened Tmdb

  datatype SearchResult = SearchResult(
    posterPath: string, bannerPath: string, id: int64, title: string, name: string, releaseDate: string)
  datatype TMDBSearch = TMDBSearch(results: seq<SearchResult>)

  /** The kind searched: "movie" when none is given, otherwise the given text, unchecked. */
  function SearchType(typeName: string): (t: string)
    ensures |t| > 0
    ensures |typeName| > 0 ==> t == typeName
  {
    if |typeName| <= 0 then "movie" else typeName
  }

  /**
   * The search request: the kind in the path, then the key, then the query,
   * in that order; the provider reads back exactly those three.
   */
  function SearchURL(typeName: string, key: string, escapedQuery: string): (url: string)
    ensures '?' !in typeName && '&' !in key ==>
      ParseApiURL(url) == Some(ApiRequest("search/" + SearchType(typeName), key, "&query=" + escapedQuery))
  {
    var url := ApiURL("search/" + SearchType(typeName), key, "&query=" + escapedQuery);
    if '?' !in typeName && '&' !in key then
      assert '?' !in SearchType(typeName);
      ParseApiURLRoundTrip("search/" + SearchType(typeName), key, "&query=" + escapedQuery);
      url
    else url
  }

  /** An empty kind searches movies: the same request as asking for "movie" outright. */
  lemma EmptyTypeSearchesMovies(key: string, escapedQuery: string)
    ensures SearchURL("", key, escapedQuery) == SearchURL("movie", key, escapedQuery)
  {
  }

  /** The handler: a failed fetch or decode is ignored and answered as an empty result list. */
  function SearchMovie(decoded: Option<TMDBSearch>): (results: seq<SearchResult>)
    ensures decoded.Some? ==> results == decoded.value.results
    ensures decoded.None? ==> results == []
  {
    decoded.GetOr(TMDBSearch([])).results
  }
}
