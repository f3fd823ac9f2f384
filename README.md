# Living Rooms API — metadata scrapers and list paging, modelled in Dafny

Living Rooms API is a small Go HTTP service behind a home-media catalogue.
Besides its database-backed CRUD endpoints it has *scraper* endpoints. These
fetch title metadata from TheMovieDB (TMDB), DuckDuckGo and Google, and reshape
the answers into the catalogue's own records. This project models that
reshaping:

- the TMDB request URLs each endpoint builds;
- movie details with the cast capped at 10 and the crew cut down to directors
  and writers;
- TV details assembled from three requests;
- image lists turned into thumbnail and full-size URL pairs;
- the DuckDuckGo `vqd`/`q` token extraction from page scripts;
- the Google image-URL collection;
- the `handler` package's conversion of a TMDB movie into a `Show`;
- the page, limit and offset arithmetic of the movie listing.

Modules, one per source file plus shared helpers:

| module | file | models |
|---|---|---|
| `Wrappers` | wrappers.dfy | `Option` |
| `Text` | text.dfy | splitting at a character and stripping a prefix (the inverses used in proofs) |
| `Decimal` | decimal.dfy | Go's 64-bit `int`, `strconv.Atoi`, `strconv.Itoa` |
| `Tmdb` | tmdb.dfy | the `https://api.themoviedb.org/3/<path>?api_key=<key><extra>` shape and its parser |
| `Http` | http.dfy | the outcome of a fetch-and-decode, and a handler's reply |
| `ScriptSearch` | script_search.dfy | the lazy patterns `vqd=(.*?)&` and `q=(.*?)&`, and the scan over scripts |
| `ScrapperMovie` | scrapper_movie.dfy | app/handler/scrapper/movie.go |
| `ScrapperImage` | scrapper_image.dfy | app/handler/scrapper/image.go |
| `ScrapperTv` | scrapper_tv.dfy | app/handler/scrapper/tv.go |
| `ScrapperSearch` | scrapper_search.dfy | app/handler/scrapper/search.go |
| `HandlerScrapper` | handler_scrapper.dfy | app/handler/scrapper.go |
| `HandlerMovie` | handler_movie.dfy | paging in app/handler/movie.go `GetAllMovie` |

Network access is a parameter in the model. Each remote call is represented by
its outcome, a `Fetch<T>`:

- `TransportError`: the request failed;
- `Received(None)`: the body did not decode, so Go's decoder leaves the zero
  record;
- `Received(Some(x))`: the body decoded to `x`.

A handler's answer is a `Reply<T>`:

- `NoReply`: the handler writes nothing; net/http then sends an empty 200
  response;
- `Success(data)`: a 200 reply with `data` as payload;
- `Failure(message)`: an error reply.

The scrapper-package helper `getHTTPRequestGetBody` returns transport errors,
but its callers drop them (`body, _ := ...`). They therefore take only an
`Option` of the decoded record. When it is
`None` they continue with the zero record, which the model spells out as
`ZeroMovie`, `ZeroTv`, `ZeroSeason` and so on.

The model follows the code, including these behaviours a reader may not expect:

- the TV cast list is not capped;
- a failed TMDB request gives a 200 reply with a zero record in the `scrapper`
  package, and an empty 200 response with no envelope in the `handler` package;
- season and episode lookups never answer "not found"; they pass on whatever
  decoded, or the zero record;
- an empty image path yields the bare URL prefix rather than being skipped;
- within one script the leftmost token match is taken, and across scripts the
  last script that matches wins;
- no second ratings source is consulted: `ImdbRating` and the other
  ratings-related fields of a `Show` are always blank.

## Model

| member | source | states |
|---|---|---|
| Decimal.Wrap64 | app/handler/movie.go:32 | Go's 64-bit `int`: identity on in-range values, otherwise the value congruent modulo 2^64 |
| Decimal.NatDigits | app/handler/scrapper.go:123 | decimal digits of a natural number: non-empty, digits only, no leading zero |
| Decimal.NatDigitsValue | app/handler/scrapper.go:123 | reading back the digits gives the number |
| Decimal.Itoa | app/handler/scrapper.go:123-127 | `strconv.Itoa`: a leading '-' exactly for negative numbers, then non-empty decimal digits with no leading zero |
| Decimal.Atoi | app/handler/movie.go:22-30 | `strconv.Atoi`: accepts only an optional sign followed by digits; a negative result needs '-' |
| Decimal.AtoiItoa | app/handler/scrapper.go:123-127 | `Atoi(Itoa(n)) == Some(n)` for every 64-bit integer: the runtime and year strings of a `Show` parse back |
| Tmdb.ApiURL | app/handler/scrapper/movie.go:82 | every TMDB request starts with the API root |
| Tmdb.ParseApiURL | app/handler/scrapper/movie.go:82 | a URL it accepts is rebuilt exactly from the parsed path, key and extra parameters |
| Tmdb.ParseApiURLRoundTrip | app/handler/scrapper/movie.go:82 | a URL built from a path without '?', a key without '&' and extra parameters starting with '&' parses back to those parts |
| Tmdb.ApiURLInjective | app/handler/scrapper/tv.go:103-105 | different well-formed requests give different URLs |
| ScriptSearch.Span | app/handler/scrapper/image.go:134-145 | the lazy `(.*?)`: longest prefix without '&' or newline, stopping just before one |
| ScriptSearch.MatchAt | app/handler/scrapper/image.go:134-145 | a match at i is the key, then a value free of '&' and newlines, then '&' |
| ScriptSearch.MatchAtIffMatches | app/handler/scrapper/image.go:134-145 | the computed match at i exists exactly when the pattern matches at i |
| ScriptSearch.MatchesAtIsFound | app/handler/scrapper/image.go:134-145 | every position where the pattern matches is found |
| ScriptSearch.FindIndexFrom | app/handler/scrapper/image.go:135 | the first matching position at or after `from`, and none before it |
| ScriptSearch.Extract | app/handler/scrapper/image.go:134-139 | an extracted value never holds '&' or a newline |
| ScriptSearch.FindString | app/handler/scrapper/image.go:135 | `FindString` is empty exactly when nothing matches, else key + value + "&" |
| ScriptSearch.ExtractNone | app/handler/scrapper/image.go:134-139 | nothing is extracted exactly when the pattern matches nowhere |
| ScriptSearch.ExtractIsLeftmost | app/handler/scrapper/image.go:134-139 | the extracted value is the one of the leftmost match |
| ScriptSearch.SpanStopsAt | app/handler/scrapper/image.go:134 | the lazy value stops at the first '&' or newline |
| ScriptSearch.ExtractAfter | app/handler/scrapper/image.go:150 | a value written as `key + v + "&"` is extracted as `v` when no occurrence of the key starts before it |
| ScriptSearch.ExtractEmbedded | app/handler/scrapper/image.go:150 | a value written as `key + v + "&"` after text free of the key's first letter is extracted as `v` |
| ScriptSearch.LastValue | app/handler/scrapper/image.go:126-147 | the token left after scanning the scripts in order, free of '&' and newlines |
| ScriptSearch.LastValueFromSomeScript | app/handler/scrapper/image.go:126-147 | a non-empty token is the value some script yields |
| ScriptSearch.LastValueNoMatch | app/handler/scrapper/image.go:131-147 | with no script matching, the token stays empty |
| ScriptSearch.LastValueIsLastMatch | app/handler/scrapper/image.go:131-147 | the token is the value from the last script that matches |
| ScriptSearch.ScanScripts | app/handler/scrapper/image.go:126-147 | the per-script loop, with Go's slicing `[4:]` / `[2:]` and dropping the last byte, yields the last-match value of each key |
| ScrapperMovie.MovieDetailURL | app/handler/scrapper/movie.go:82 | the detail request parses back to `movie/<id>`, the key and `&append_to_response=credits,videos` |
| ScrapperMovie.CappedCast | app/handler/scrapper/movie.go:88-90 | the first `min(n, 10)` cast members, in order |
| ScrapperMovie.KeptJob | app/handler/scrapper/movie.go:96 | the jobs kept in the crew: exactly "Director" and "Writer", compared case-sensitively |
| ScrapperMovie.KeptCrew | app/handler/scrapper/movie.go:95-97 | the crew filter of the loop body: no longer than the crew, and every entry is from the crew with a kept job |
| ScrapperMovie.KeptCrewAppend | app/handler/scrapper/movie.go:93-101 | the crew filter distributes over concatenation, so order is kept |
| ScrapperMovie.KeptCrewCounts | app/handler/scrapper/movie.go:93-101 | each "Director" or "Writer" entry keeps its multiplicity, every other entry is dropped |
| ScrapperMovie.KeptCrewMembers | app/handler/scrapper/movie.go:96 | an entry is kept exactly when it is in the crew and its job is "Director" or "Writer" |
| ScrapperMovie.KeptCrewNoneMatch | app/handler/scrapper/movie.go:93-101 | a crew without directors or writers becomes empty |
| ScrapperMovie.KeptCrewIdempotent | app/handler/scrapper/movie.go:93-101 | filtering twice is filtering once |
| ScrapperMovie.Normalized | app/handler/scrapper/movie.go:87-101 | cast capped, crew filtered, every other field of the movie unchanged |
| ScrapperMovie.NormalizedIdempotent | app/handler/scrapper/movie.go:87-101 | normalising a normalised movie changes nothing |
| ScrapperMovie.NormalizeCredits | app/handler/scrapper/movie.go:87-101 | the slice-then-append loop computes `Normalized` |
| ScrapperMovie.GetMovieDetail | app/handler/scrapper/movie.go:77-104 | the detail URL, and the normalised decoded movie or the zero movie |
| ScrapperImage.FilePairs | app/handler/scrapper/image.go:63-78 | one pair per file, in order: thumbnail prefix + path, original prefix + path |
| ScrapperImage.ImageResults | app/handler/scrapper/image.go:61-79 | backdrops for "banners", posters for "posters", nothing for any other kind |
| ScrapperImage.FilePairsRecoverPath | app/handler/scrapper/image.go:63-78 | stripping the prefixes from either URL of the i-th pair gives the i-th file path |
| ScrapperImage.EmptyPathKept | app/handler/scrapper/image.go:63-78 | an empty file path gives the bare prefixes; it is not skipped |
| ScrapperImage.AppendPairs | app/handler/scrapper/image.go:64-69 | the append loop computes `FilePairs` |
| ScrapperImage.MapImageKind | app/handler/scrapper/image.go:61-79 | the branch on the kind computes `ImageResults` |
| ScrapperImage.MovieImagesURL | app/handler/scrapper/image.go:54 | the request parses back to `movie/<id>/images` and the key |
| ScrapperImage.TvImagesURL | app/handler/scrapper/image.go:88 | the request parses back to `tv/<id>/images` and the key |
| ScrapperImage.GetMovieImage | app/handler/scrapper/image.go:50-82 | URL and pairs for the kind; an undecoded body gives an empty list |
| ScrapperImage.GetTvImage | app/handler/scrapper/image.go:84-116 | URL and pairs for the kind; an undecoded body gives an empty list |
| ScrapperImage.ImageURLsDifferOnlyByKind | app/handler/scrapper/image.go:54 | the movie and TV image requests agree on everything but the path |
| ScrapperImage.DuckDuckGoPageURL | app/handler/scrapper/image.go:122 | the page URL carries the escaped query as its `q` token |
| ScrapperImage.DuckDuckGoJsonURL | app/handler/scrapper/image.go:150 | the JSON URL carries the scraped `q` back as its `q` token, and `vqd` as its `vqd` token whenever `q` holds no `vqd=` |
| ScrapperImage.QueryBeforeVqd | app/handler/scrapper/image.go:150 | the JSON endpoint URL reads back `q` when `q` holds no '&' or newline, and `vqd` when `vqd` holds none and `q` holds no `vqd=` |
| ScrapperImage.VqdAfterQuery | app/handler/scrapper/image.go:150 | after any prefix without a 'v' and a `q` without `vqd=`, the `vqd` token reads back |
| ScrapperImage.CommonFromDuckDuckGo | app/handler/scrapper/image.go:160-168 | one pair per result, in order, with its thumbnail and image |
| ScrapperImage.GetDuckDuckGoImage | app/handler/scrapper/image.go:118-171 | JSON URL from the last-match tokens; `q` reads back from it, and so does `vqd` when `q` holds no `vqd=`; a transport error ends the handler without writing, so the client gets an empty 200 response; otherwise the copied pairs, or an empty list when undecoded |
| ScrapperImage.GooglePageURL | app/handler/scrapper/image.go:176 | the page URL carries the escaped query as its `q` token |
| ScrapperImage.LastNonEmptyMatches | app/handler/scrapper/image.go:193-206 | the URL list of the last script with any match, or nothing |
| ScrapperImage.CommonFromUrls | app/handler/scrapper/image.go:208-216 | one pair per URL, in order, with thumbnail and image both that URL |
| ScrapperImage.GetGoogleImage | app/handler/scrapper/image.go:173-219 | the page URL, and a pair for each URL of the last script with matches |
| ScrapperTv.TvDetailURLs | app/handler/scrapper/tv.go:103-105 | the three requests parse back to `tv/<id>`, `tv/<id>/credits`, `tv/<id>/videos` with the key |
| ScrapperTv.TvDetailURLsDistinct | app/handler/scrapper/tv.go:103-105 | the three requests are pairwise different |
| ScrapperTv.MergeTvDetail | app/handler/scrapper/tv.go:116-120 | cast names appended in order after the existing ones, uncapped; videos replaced; every other field unchanged |
| ScrapperTv.GetTvDetail | app/handler/scrapper/tv.go:96-122 | the URLs, and the merged record: the detail's casts followed by every credit name in order, the decoded videos, every other field of the detail; an undecoded part contributes its zero value |
| ScrapperTv.SeasonURL | app/handler/scrapper/tv.go:131 | the request parses back to `tv/<id>/season/<n>` and the key |
| ScrapperTv.EpisodeURL | app/handler/scrapper/tv.go:147 | the request parses back to `tv/<id>/season/<n>/episode/<m>` and the key |
| ScrapperTv.GetTvSeason | app/handler/scrapper/tv.go:125-137 | the decoded season, or the zero season; never "not found" |
| ScrapperTv.GetTvEpisode | app/handler/scrapper/tv.go:140-153 | the decoded episode, or the zero episode; never "not found" |
| ScrapperSearch.SearchType | app/handler/scrapper/search.go:30-32 | never empty; a given type is kept as sent |
| ScrapperSearch.SearchURL | app/handler/scrapper/search.go:34-39 | the request parses back to `search/<type>`, the key and `&query=<escaped>` |
| ScrapperSearch.EmptyTypeSearchesMovies | app/handler/scrapper/search.go:30-32 | no type gives the same request as "movie" |
| ScrapperSearch.SearchMovie | app/handler/scrapper/search.go:41-43 | the decoded results, or an empty list |
| HandlerScrapper.ToShow | app/handler/scrapper.go:107-134 | Type "movie"; unmapped fields blank; title, language, plot, release date, website and IMDb id copied; poster and banner strip back to the TMDB paths; runtime and year are the canonical decimal text of their numbers (`Itoa`) and parse back to them |
| HandlerScrapper.MovieURL | app/handler/scrapper.go:95 | the request parses back to `movie/<id>` and the key, nothing appended |
| HandlerScrapper.GetMovieDetail | app/handler/scrapper.go:92-136 | nothing written (an empty 200 response) exactly on a transport error; otherwise the show of the decoded movie or of the zero record |
| HandlerScrapper.SearchMovieURL | app/handler/scrapper.go:143 | the same request as the scrapper package's search with no type; parses back to `search/movie`, key, query |
| HandlerScrapper.SearchMovie | app/handler/scrapper.go:138-153 | nothing written (an empty 200 response) exactly on a transport error; otherwise the decoded results or an empty list |
| HandlerScrapper.GetDuckDuckGoImage | app/handler/scrapper.go:155-201 | the same tokens and JSON request as the scrapper package, with `q` reading back from the request, and `vqd` too when `q` holds no `vqd=`; nothing written (an empty 200 response) on a transport error; otherwise the raw results unchanged |
| HandlerMovie.Offset | app/handler/movie.go:32 | `(page - 1) * limit` wrapped to 64 bits for every input, and exact whenever it fits |
| HandlerMovie.OffsetNotClamped | app/handler/movie.go:32 | for a non-negative limit and no overflow, page 0 or below is not clamped: the offset is 0 or negative, and `-limit` for page 0 |
| HandlerMovie.PageFromOffset | app/handler/movie.go:32 | for a positive limit and no overflow, offset / limit + 1 gives the page back exactly |
| HandlerMovie.ParsePaging | app/handler/movie.go:22-32 | page and limit as parsed, or 1 and 25 when they do not parse; the offset from them |
| HandlerMovie.MissingParametersDefault | app/handler/movie.go:22-30 | whenever neither parameter parses as an integer (absent, a word, out of range), paging is page 1, limit 25, offset 0 |
| HandlerMovie.MissingParametersExamples | app/handler/movie.go:22-30 | absent parameters and words are such parameters |
| HandlerMovie.ParsePagingEchoes | app/handler/movie.go:22-30 | numbers written the way `Itoa` writes them are taken exactly as sent |
| HandlerMovie.GenreJoin | app/handler/movie.go:38-42 | a genre join exactly for a non-empty genre, matching that name |
| HandlerMovie.TitlePattern | app/handler/movie.go:44-46 | a pattern exactly for a non-empty title: the title between two '%' |
| HandlerMovie.ListQuery | app/handler/movie.go:34-61 | paging, genre join and title pattern of the query |
| HandlerMovie.GetAllMovie | app/handler/movie.go:63-74 | a database error is answered as a failure; otherwise meta echoes limit, offset and page, with the row count as total |

## Left out

- HTTP transport, reading bodies, HTML parsing and JSON decoding are not modelled. Each fetch is an input (`Fetch` or `Option` of the decoded record), and the scripts of a page are an input sequence of strings.
- Partial JSON decoding is not modelled. A body whose fields have the wrong type can leave some fields set and others zero; the model has only "decoded" or "zero record".
- Nil versus empty slices are not modelled: both are the empty sequence, so JSON `null` and `[]` are not told apart.
- `url.QueryEscape` and `url.PathEscape` are not modelled. The escaped query is an input.
- The Google image-URL regular expression is not modelled. The list of matches found in each script is an input.
- The year in `handler.GetMovieDetail` is an input. It comes from `time.Parse`, called with the date as the layout and a fixed date as the value.
- Floating-point fields (popularity, vote averages) are carried as opaque 64-bit patterns.
- A failed DuckDuckGo page fetch is not modelled: the page's scripts are an input. The handler package ends the process on that error (`log.Fatal`). The scrapper package drops the error and then dereferences the nil response (app/handler/scrapper/image.go:123-124), so the handler panics; net/http recovers and closes the connection without sending a response.
- In `GetGoogleImage`, a failure to build or send the request ends the process (`log.Fatal`); this is not modelled. The client's 10-second timeout and its headers are not modelled either.
- `belongs_to_collection` and other decoded fields that no handler reads or reshapes are not modelled.
- The rows returned by the database query and the counting query are not modelled. The database's treatment of a negative offset or limit is not modelled either: `GetAllMovie` takes the count or the error as inputs.
- The package-level `err` variable shared by concurrent requests is not modelled. Neither is concurrency in general.
- The JSON envelope written by `respondJSON` and `respondError` is not modelled. A reply is its status kind and payload.
- The `TMDB_KEY` environment variable is not modelled: the key is a parameter.
- The CRUD handlers of the catalogue are not part of this model.
