/**
 * TV details from TheMovieDB (app/handler/scrapper/tv.go): the detail record
 * merged with the cast names of the credits request and the videos request,
 * and the season and episode lookups, which pass the decoded record through.
 */
module ScrapperTv {
  import opened Wrappers
  import opened Decimal
  import opened Tmdb

  datatype CreatedBy = CreatedBy(id: int64, creditId: string, name: string, gender: int64, profilePath: string)
  datatype Genre = Genre(id: int64, name: string)
  datatype Network = Network(id: int64, name: string, originCountry: string)
  datatype ProductionCompany = ProductionCompany(name: string, originCountry: string)
  datatype Episode = Episode(
    airDate: string, episodeNumber: int64, name: string, overview: string, id: int64,
    productionCode: string, seasonNumber: int64, stillPath: string, voteAverage: Float64, voteCount: int64)
  datatype Season = Season(
    airDate: string, episodeCount: int64, id: int64, name: string, overview: string,
    episodes: seq<Episode>, posterPath: string, seasonNumber: int64)
  datatype Video = Video(key: string, site: string, videoType: string)
  datatype Cast = Cast(name: string)
  datatype TMDBTvCast = TMDBTvCast(cast: seq<Cast>)
  datatype TMDBTvVideo = TMDBTvVideo(results: seq<Video>)

  datatype TMDBTv = TMDBTv(
    backdropPath: string,
    createdBy: seq<CreatedBy>,
    episodeRunTime: seq<int64>,
    firstAirDate: string,
    genres: seq<Genre>,
    name: string,
    networks: seq<Network>,
    numberOfEpisodes: int64,
    numberOfSeasons: int64,
    originCountry: seq<string>,
    overview: string,
    posterPath: string,
    productionCompanies: seq<ProductionCompany>,
    seasons: seq<Season>,
    casts: seq<string>,
    videos: seq<Video>)

  const ZeroTv := TMDBTv("", [], [], "", [], "", [], 0, 0, [], "", "", [], [], [], [])
  const ZeroSeason := Season("", 0, 0, "", "", [], "", 0)
  const ZeroEpisode := Episode("", 0, "", "", 0, "", 0, "", Float64(0), 0)

  function TvPath(tmdbID: string): string { "tv/" + tmdbID }

  /**
   * The detail, credits and videos requests: the same id and key, and paths
   * that differ only by the suffix "", "/credits" or "/videos".
   */
  function TvDetailURLs(tmdbID: string, key: string): (urls: (string, string, string))
    ensures '?' !in tmdbID && '&' !in key ==>
      && ParseApiURL(urls.0) == Some(ApiRequest(TvPath(tmdbID), key, ""))
      && ParseApiURL(urls.1) == Some(ApiRequest(TvPath(tmdbID) + "/credits", key, ""))
      && ParseApiURL(urls.2) == Some(ApiRequest(TvPath(tmdbID) + "/videos", key, ""))
  {
    var urls := (ApiURL(TvPath(tmdbID), key, ""),
                 ApiURL(TvPath(tmdbID) + "/credits", key, ""),
                 ApiURL(TvPath(tmdbID) + "/videos", key, ""));
    if '?' !in tmdbID && '&' !in key then
      ParseApiURLRoundTrip(TvPath(tmdbID), key, "");
      ParseApiURLRoundTrip(TvPath(tmdbID) + "/credits", key, "");
      ParseApiURLRoundTrip(TvPath(tmdbID) + "/videos", key, "");
      urls
    else urls
  }

  /** The three requests of one detail lookup are pairwise different. */
  lemma TvDetailURLsDistinct(tmdbID: string, key: string)
    requires '?' !in tmdbID && '&' !in key
    ensures TvDetailURLs(tmdbID, key).0 != TvDetailURLs(tmdbID, key).1
    ensures TvDetailURLs(tmdbID, key).0 != TvDetailURLs(tmdbID, key).2
    ensures TvDetailURLs(tmdbID, key).1 != TvDetailURLs(tmdbID, key).2
  {
    var p := TvPath(tmdbID);
    assert |p + "/credits"| != |p|;
    assert |p + "/videos"| != |p|;
    assert (p + "/credits")[|p| + 1] == 'c';
    assert (p + "/videos")[|p| + 1] == 'v';
  }

  /**
   * The merge loop: the credit names are appended to the detail record's casts,
   * in order and without a cap, and the videos are replaced wholesale.
   */
  method MergeTvDetail(detail: TMDBTv, credits: TMDBTvCast, videos: TMDBTvVideo) returns (tv: TMDBTv)
    ensures |tv.casts| == |detail.casts| + |credits.cast|
    ensures tv.casts[..|detail.casts|] == detail.casts
    ensures forall i :: 0 <= i < |credits.cast| ==> tv.casts[|detail.casts| + i] == credits.cast[i].name
    ensures tv.videos == videos.results
    ensures tv.(casts := detail.casts, videos := detail.videos) == detail
  {
    tv := detail;
    for i := 0 to |credits.cast|
      invariant |tv.casts| == |detail.casts| + i
      invariant tv.casts[..|detail.casts|] == detail.casts
      invariant forall k :: 0 <= k < i ==> tv.casts[|detail.casts| + k] == credits.cast[k].name
      invariant tv.(casts := detail.casts) == detail
    {
      tv := tv.(casts := tv.casts + [credits.cast[i].name]);
    }
    tv := tv.(videos := videos.results);
  }

  /**
   * The handler: each of the three decodes may fail independently and leaves
   * its record at zero; none of them fails the call.
   */
  method GetTvDetail(tmdbID: string, key: string,
                     detail: Option<TMDBTv>, credits: Option<TMDBTvCast>, videos: Option<TMDBTvVideo>)
    returns (urls: (string, string, string), tv: TMDBTv)
    ensures urls == TvDetailURLs(tmdbID, key)
    ensures credits.None? ==> tv.casts == detail.GetOr(ZeroTv).casts
    ensures videos.None? ==> tv.videos == []
    ensures videos.Some? ==> tv.videos == videos.value.results
    ensures credits.Some? ==> |tv.casts| == |detail.GetOr(ZeroTv).casts| + |credits.value.cast|
    ensures credits.Some? ==> tv.casts[..|detail.GetOr(ZeroTv).casts|] == detail.GetOr(ZeroTv).casts
    ensures credits.Some? ==> forall i :: 0 <= i < |credits.value.cast| ==>
      tv.casts[|detail.GetOr(ZeroTv).casts| + i] == credits.value.cast[i].name
    ensures tv.(casts := ZeroTv.casts, videos := ZeroTv.videos) == detail.GetOr(ZeroTv).(casts := ZeroTv.casts, videos := ZeroTv.videos)
  {
    urls := TvDetailURLs(tmdbID, key);
    var base := detail.GetOr(ZeroTv);
    tv := MergeTvDetail(base, credits.GetOr(TMDBTvCast([])), videos.GetOr(TMDBTvVideo([])));
    if credits.None? {
      assert tv.casts == tv.casts[..|base.casts|];
    }
  }

  function SeasonPath(tmdbID: string, season: string): string {
    TvPath(tmdbID) + "/season/" + season
  }

  /** The season request: the season number follows `/season/`. */
  function SeasonURL(tmdbID: string, season: string, key: string): (url: string)
    ensures '?' !in tmdbID + season && '&' !in key ==>
      ParseApiURL(url) == Some(ApiRequest("tv/" + tmdbID + "/season/" + season, key, ""))
  {
    var url := ApiURL(SeasonPath(tmdbID, season), key, "");
    if '?' !in tmdbID + season && '&' !in key then
      assert '?' !in tmdbID && '?' !in season by {
        assert forall c :: c in tmdbID || c in season ==> c in tmdbID + season;
      }
      ParseApiURLRoundTrip(SeasonPath(tmdbID, season), key, "");
      url
    else url
  }

  /** The episode request: the season path extended by `/episode/` and the episode number. */
  function EpisodeURL(tmdbID: string, season: string, episode: string, key: string): (url: string)
    ensures '?' !in tmdbID + season + episode && '&' !in key ==>
      ParseApiURL(url) == Some(ApiRequest(SeasonPath(tmdbID, season) + "/episode/" + episode, key, ""))
  {
    var path := SeasonPath(tmdbID, season) + "/episode/" + episode;
    var url := ApiURL(path, key, "");
    if '?' !in tmdbID + season + episode && '&' !in key then
      assert '?' !in tmdbID && '?' !in season && '?' !in episode by {
        assert forall c :: c in tmdbID || c in season || c in episode ==> c in tmdbID + season + episode;
      }
      ParseApiURLRoundTrip(path, key, "");
      url
    else url
  }

  /** Season lookup: the decoded record as it is, or the zero record when decoding failed. */
  function GetTvSeason(decoded: Option<Season>): (s: Season)
    ensures decoded.Some? ==> s == decoded.value
    ensures decoded.None? ==> s == ZeroSeason
  {
    decoded.GetOr(ZeroSeason)
  }

  /** Episode lookup: the decoded record as it is, or the zero record when decoding failed. */
  function GetTvEpisode(decoded: Option<Episode>): (e: Episode)
    ensures decoded.Some? ==> e == decoded.value
    ensures decoded.None? ==> e == ZeroEpisode
  {
    decoded.GetOr(ZeroEpisode)
  }
}
