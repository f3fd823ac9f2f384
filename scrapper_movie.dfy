/**
 * Movie detail from TheMovieDB (app/handler/scrapper/movie.go): one request
 * with credits and videos appended, after which the cast is cut to its first
 * ten entries and the crew is filtered to directors and writers.
 */
module ScrapperMovie {
  import opened Wrappers
  import opened Decimal
  import opened Tmdb

  const CastLimit := 10

  datatype MovieGenre = MovieGenre(id: int64, name: string)
  datatype MovieProductionCompany = MovieProductionCompany(id: int64, logoPath: string, name: string, originCountry: string)
  datatype MovieProductionCountry = MovieProductionCountry(iso31661: string, name: string)
  datatype MovieCast = MovieCast(castId: int64, character: string, creditId: string, gender: int64,
                                 id: int64, name: string, order: int64, profilePath: string)
  datatype MovieCrew = MovieCrew(creditId: string, department: string, gender: int64, id: int64,
                                 job: string, name: string, profilePath: string)
  datatype Credits = Credits(cast: seq<MovieCast>, crew: seq<MovieCrew>)
  datatype VideoResult = VideoResult(id: string, iso6391: string, iso31661: string, key: string,
                                     name: string, site: string, size: int64, videoType: string)
  datatype Videos = Videos(results: seq<VideoResult>)

  datatype TMDBMovie = TMDBMovie(
    adult: bool,
    backdropPath: string,
    genres: seq<MovieGenre>,
    id: int64,
    imdbId: string,
    overview: string,
    posterPath: string,
    productionCompanies: seq<MovieProductionCompany>,
    productionCountries: seq<MovieProductionCountry>,
    releaseDate: string,
    runtime: int64,
    title: string,
    credits: Credits,
    videos: Videos)

  /** The record a failed fetch or decode leaves behind: every field at its zero value. */
  const ZeroMovie := TMDBMovie(false, "", [], 0, "", "", "", [], [], "", 0, "", Credits([], []), Videos([]))

  function Min(a: int, b: int): int { if a <= b then a else b }

  /** The request: the id in the path, and credits and videos appended to the response. */
  function MovieDetailURL(tmdbID: string, key: string): (url: string)
    ensures '?' !in tmdbID && '&' !in key ==>
      ParseApiURL(url) == Some(ApiRequest("movie/" + tmdbID, key, "&append_to_response=credits,videos"))
  {
    var url := ApiURL("movie/" + tmdbID, key, "&append_to_response=credits,videos");
    if '?' !in tmdbID && '&' !in key then
      ParseApiURLRoundTrip("movie/" + tmdbID, key, "&append_to_response=credits,videos");
      url
    else url
  }

  /** Job titles kept in the crew, compared exactly (so "director" is not kept). */
  predicate KeptJob(job: string) {
    job == "Director" || job == "Writer"
  }

  /** The cast after truncation: the first ten entries, in the provider's order. */
  function CappedCast(cast: seq<MovieCast>): (r: seq<MovieCast>)
    ensures |r| == Min(|cast|, CastLimit)
    ensures r == cast[..|r|]
  {
    if |cast| > CastLimit then cast[0..CastLimit] else cast
  }

  /** The crew entries whose job is kept, in their original order. */
  function KeptCrew(crew: seq<MovieCrew>): (r: seq<MovieCrew>)
    ensures |r| <= |crew|
    ensures forall i :: 0 <= i < |r| ==> KeptJob(r[i].job) && r[i] in crew
  {
    if crew == [] then []
    else KeptCrew(crew[..|crew| - 1]) + (if KeptJob(crew[|crew| - 1].job) then [crew[|crew| - 1]] else [])
  }

  /** Filtering distributes over concatenation, so relative order is kept. */
  lemma {:induction false} KeptCrewAppend(a: seq<MovieCrew>, b: seq<MovieCrew>)
    ensures KeptCrew(a + b) == KeptCrew(a) + KeptCrew(b)
  {
    if b == [] {
      assert a + b == a;
    } else {
      assert (a + b)[..|a + b| - 1] == a + b[..|b| - 1];
      KeptCrewAppend(a, b[..|b| - 1]);
    }
  }

  /** Each entry occurs in the result as often as in the input if its job is kept, else never. */
  lemma {:induction false} KeptCrewCounts(crew: seq<MovieCrew>, c: MovieCrew)
    ensures multiset(KeptCrew(crew))[c] == if KeptJob(c.job) then multiset(crew)[c] else 0
  {
    if crew != [] {
      var init := crew[..|crew| - 1];
      assert crew == init + [crew[|crew| - 1]];
      KeptCrewCounts(init, c);
    }
  }

  /** Every kept entry has a whitelisted job, and every whitelisted entry is kept. */
  lemma KeptCrewMembers(crew: seq<MovieCrew>, c: MovieCrew)
    ensures c in KeptCrew(crew) <==> c in crew && KeptJob(c.job)
  {
    KeptCrewCounts(crew, c);
    assert c in KeptCrew(crew) <==> multiset(KeptCrew(crew))[c] > 0;
    assert c in crew <==> multiset(crew)[c] > 0;
  }

  /** When no job matches, the crew becomes empty rather than a list of blanked entries. */
  lemma {:induction false} KeptCrewNoneMatch(crew: seq<MovieCrew>)
    requires forall k :: 0 <= k < |crew| ==> !KeptJob(crew[k].job)
    ensures KeptCrew(crew) == []
  {
    if crew != [] {
      KeptCrewNoneMatch(crew[..|crew| - 1]);
    }
  }

  /** Filtering an already filtered crew changes nothing. */
  lemma {:induction false} KeptCrewIdempotent(crew: seq<MovieCrew>)
    ensures KeptCrew(KeptCrew(crew)) == KeptCrew(crew)
  {
    if crew != [] {
      var init := crew[..|crew| - 1];
      var last := crew[|crew| - 1];
      KeptCrewIdempotent(init);
      KeptCrewAppend(KeptCrew(init), if KeptJob(last.job) then [last] else []);
      if KeptJob(last.job) {
        assert [last][..0] == [];
      }
    }
  }

  /** The record after normalisation: only the cast and the crew differ from the decoded one. */
  function Normalized(m: TMDBMovie): (r: TMDBMovie)
    ensures |r.credits.cast| == Min(|m.credits.cast|, CastLimit)
    ensures r.credits.cast == m.credits.cast[..|r.credits.cast|]
    ensures r.credits.crew == KeptCrew(m.credits.crew)
    ensures r.(credits := m.credits) == m
  {
    m.(credits := Credits(CappedCast(m.credits.cast), KeptCrew(m.credits.crew)))
  }

  /** Normalising a normalised record changes nothing. */
  lemma NormalizedIdempotent(m: TMDBMovie)
    ensures Normalized(Normalized(m)) == Normalized(m)
  {
    KeptCrewIdempotent(m.credits.crew);
  }

  /**
   * The in-place steps of `GetMovieDetail` after decoding: reslice the cast,
   * collect the kept crew by appending, then overwrite the crew.
   */
  method NormalizeCredits(decoded: TMDBMovie) returns (movie: TMDBMovie)
    ensures movie == Normalized(decoded)
  {
    movie := decoded;
    if |movie.credits.cast| > CastLimit {
      movie := movie.(credits := movie.credits.(cast := movie.credits.cast[0..CastLimit]));
    }
    var movieCrew: seq<MovieCrew> := [];
    for i := 0 to |movie.credits.crew|
      invariant movieCrew == KeptCrew(movie.credits.crew[..i])
    {
      var crew := movie.credits.crew[i];
      assert movie.credits.crew[..i + 1][..i] == movie.credits.crew[..i];
      if crew.job == "Director" || crew.job == "Writer" {
        movieCrew := movieCrew + [crew];
      }
    }
    assert movie.credits.crew[..|movie.credits.crew|] == movie.credits.crew;
    movie := movie.(credits := movie.credits.(crew := movieCrew));
  }

  /**
   * The handler: the decoded body (or the zero record when fetching or decoding
   * failed, which the handler ignores) is normalised and answered with success.
   */
  method GetMovieDetail(tmdbID: string, key: string, decoded: Option<TMDBMovie>)
    returns (apiURL: string, movie: TMDBMovie)
    ensures apiURL == MovieDetailURL(tmdbID, key)
    ensures decoded.Some? ==> movie == Normalized(decoded.value)
    ensures decoded.None? ==> movie == ZeroMovie
  {
    apiURL := MovieDetailURL(tmdbID, key);
    movie := NormalizeCredits(decoded.GetOr(ZeroMovie));
  }
}
