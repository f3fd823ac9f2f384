/**
 * Image lists (app/handler/scrapper/image.go): TheMovieDB backdrops and
 * posters turned into thumbnail/full-size URL pairs, and the two search-engine
 * scrapers, DuckDuckGo (token extraction then a JSON request) and Google
 * (image URLs found in the page's scripts).
 */
module ScrapperImage {
  import opened Wrappers
  import opened Text
  import opened Decimal
  import opened Tmdb
  import opened Http
  import opened ScriptSearch

  const BackdropThumbPrefix := "https://image.tmdb.org/t/p/w500_and_h282_face"
  const PosterThumbPrefix := "https://image.tmdb.org/t/p/w220_and_h330_face"
  const OriginalPrefix := "https://image.tmdb.org/t/p/original"

  /** The one shape every image endpoint answers with. */
  datatype CommonImageResult = CommonImageResult(thumbnail: string, image: string)

  datatype ImageFile = ImageFile(filePath: string, height: int64, width: int64)
  datatype TMDBMovieImage = TMDBMovieImage(id: int64, backdrops: seq<ImageFile>, posters: seq<ImageFile>)

  const ZeroMovieImage := TMDBMovieImage(0, [], [])

  datatype DuckDuckGoImageResultData = DuckDuckGoImageResultData(
    height: int64, url: string, width: int64, source: string, title: string,
    thumbnail: string, image: string)
  datatype DuckDuckGoImageResult = DuckDuckGoImageResult(results: seq<DuckDuckGoImageResultData>)

  /** One pair per file, in order: the thumbnail under `thumbPrefix`, the full image under the original size. */
  function FilePairs(files: seq<ImageFile>, thumbPrefix: string): (r: seq<CommonImageResult>)
    ensures |r| == |files|
    ensures forall i :: 0 <= i < |r| ==>
      r[i].thumbnail == thumbPrefix + files[i].filePath && r[i].image == OriginalPrefix + files[i].filePath
  {
    if files == [] then []
    else [CommonImageResult(thumbPrefix + files[0].filePath, OriginalPrefix + files[0].filePath)]
         + FilePairs(files[1..], thumbPrefix)
  }

  /** The results for a requested kind: backdrops for "banners", posters for "posters", nothing otherwise. */
  function ImageResults(imageType: string, images: TMDBMovieImage): (r: seq<CommonImageResult>)
    ensures imageType == "banners" ==> r == FilePairs(images.backdrops, BackdropThumbPrefix)
    ensures imageType == "posters" ==> r == FilePairs(images.posters, PosterThumbPrefix)
    ensures imageType != "banners" && imageType != "posters" ==> r == []
  {
    if imageType == "banners" then FilePairs(images.backdrops, BackdropThumbPrefix)
    else if imageType == "posters" then FilePairs(images.posters, PosterThumbPrefix)
    else []
  }

  /**
   * Both URLs of a result name the same file: removing the two prefixes gives
   * back the provider's relative path of the i-th file.
   */
  lemma FilePairsRecoverPath(files: seq<ImageFile>, thumbPrefix: string, i: nat)
    requires i < |files|
    ensures StripPrefix(FilePairs(files, thumbPrefix)[i].thumbnail, thumbPrefix) == Some(files[i].filePath)
    ensures StripPrefix(FilePairs(files, thumbPrefix)[i].image, OriginalPrefix) == Some(files[i].filePath)
  {
    StripPrefixJoin(thumbPrefix, files[i].filePath);
    StripPrefixJoin(OriginalPrefix, files[i].filePath);
  }

  /** An empty relative path is not skipped: it yields the bare prefixes. */
  lemma EmptyPathKept(thumbPrefix: string, height: int64, width: int64)
    ensures FilePairs([ImageFile("", height, width)], thumbPrefix) == [CommonImageResult(thumbPrefix, OriginalPrefix)]
  {
    assert thumbPrefix + "" == thumbPrefix;
    assert OriginalPrefix + "" == OriginalPrefix;
  }

  /** The append loop of one branch. */
  method AppendPairs(files: seq<ImageFile>, thumbPrefix: string) returns (results: seq<CommonImageResult>)
    ensures results == FilePairs(files, thumbPrefix)
  {
    results := [];
    for i := 0 to |files|
      invariant |results| == i
      invariant forall k :: 0 <= k < i ==>
        results[k] == CommonImageResult(thumbPrefix + files[k].filePath, OriginalPrefix + files[k].filePath)
    {
      var v := files[i];
      results := results + [CommonImageResult(thumbPrefix + v.filePath, OriginalPrefix + v.filePath)];
    }
  }

  /** The branch on the requested kind shared by `GetMovieImage` and `GetTvImage`. */
  method MapImageKind(imageType: string, images: TMDBMovieImage) returns (results: seq<CommonImageResult>)
    ensures results == ImageResults(imageType, images)
  {
    results := [];
    if imageType == "banners" {
      results := AppendPairs(images.backdrops, BackdropThumbPrefix);
    } else if imageType == "posters" {
      results := AppendPairs(images.posters, PosterThumbPrefix);
    }
  }

  function MovieImagesURL(tmdbID: string, key: string): (url: string)
    ensures '?' !in tmdbID && '&' !in key ==>
      ParseApiURL(url) == Some(ApiRequest("movie/" + tmdbID + "/images", key, ""))
  {
    var url := ApiURL("movie/" + tmdbID + "/images", key, "");
    if '?' !in tmdbID && '&' !in key then
      ParseApiURLRoundTrip("movie/" + tmdbID + "/images", key, "");
      url
    else url
  }

  function TvImagesURL(tmdbID: string, key: string): (url: string)
    ensures '?' !in tmdbID && '&' !in key ==>
      ParseApiURL(url) == Some(ApiRequest("tv/" + tmdbID + "/images", key, ""))
  {
    var url := ApiURL("tv/" + tmdbID + "/images", key, "");
    if '?' !in tmdbID && '&' !in key then
      ParseApiURLRoundTrip("tv/" + tmdbID + "/images", key, "");
      url
    else url
  }

  /** A failed fetch or decode leaves the image record at zero, so the answer is an empty list. */
  method GetMovieImage(tmdbID: string, key: string, imageType: string, decoded: Option<TMDBMovieImage>)
    returns (apiURL: string, results: seq<CommonImageResult>)
    ensures apiURL == MovieImagesURL(tmdbID, key)
    ensures results == ImageResults(imageType, decoded.GetOr(ZeroMovieImage))
    ensures decoded.None? ==> results == []
  {
    apiURL := MovieImagesURL(tmdbID, key);
    results := MapImageKind(imageType, decoded.GetOr(ZeroMovieImage));
  }

  method GetTvImage(tmdbID: string, key: string, imageType: string, decoded: Option<TMDBMovieImage>)
    returns (apiURL: string, results: seq<CommonImageResult>)
    ensures apiURL == TvImagesURL(tmdbID, key)
    ensures results == ImageResults(imageType, decoded.GetOr(ZeroMovieImage))
    ensures decoded.None? ==> results == []
  {
    apiURL := TvImagesURL(tmdbID, key);
    results := MapImageKind(imageType, decoded.GetOr(ZeroMovieImage));
  }

  /** The movie and TV image requests differ only in the path segment naming the kind of title. */
  lemma ImageURLsDifferOnlyByKind(tmdbID: string, key: string)
    requires '?' !in tmdbID && '&' !in key
    ensures ParseApiURL(MovieImagesURL(tmdbID, key)).Some? && ParseApiURL(TvImagesURL(tmdbID, key)).Some?
    ensures ParseApiURL(MovieImagesURL(tmdbID, key)).value.(path := "") == ParseApiURL(TvImagesURL(tmdbID, key)).value.(path := "")
    ensures ParseApiURL(TvImagesURL(tmdbID, key)).value.path == "tv/" + tmdbID + "/images"
    ensures ParseApiURL(MovieImagesURL(tmdbID, key)).value.path == "movie/" + tmdbID + "/images"
  {
  }

  // DuckDuckGo

  /** The HTML search page, with the already query-escaped search text. */
  function DuckDuckGoPageURL(escapedQuery: string): (url: string)
    ensures NoStop(escapedQuery) ==> Extract(url, QKey) == Some(escapedQuery)
  {
    var url := "https://duckduckgo.com/?" + QKey + escapedQuery + "&" + "iar=images&iax=images&ia=images";
    if NoStop(escapedQuery) then
      assert 'q' !in "https://duckduckgo.com/?";
      ExtractEmbedded("https://duckduckgo.com/?", QKey, escapedQuery, "iar=images&iax=images&ia=images");
      url
    else url
  }

  /**
   * The JSON image endpoint, with `q` and `vqd` inserted unescaped. Since
   * extracted tokens hold no `&` or newline, the endpoint reads back the same
   * `q`, and the same `vqd` as long as `q` does not hold a `vqd=` of its own.
   */
  function DuckDuckGoJsonURL(q: string, vqd: string): (url: string)
    ensures NoStop(q) ==> Extract(url, QKey) == Some(q)
    ensures NoStop(vqd) && (forall p: nat :: !KeyAt(q, VqdKey, p)) ==> Extract(url, VqdKey) == Some(vqd)
  {
    var url := JsonPrefix + QKey + q + "&" + (VqdKey + vqd + "&" + JsonTail);
    QueryBeforeVqd(q, vqd);
    url
  }

  const JsonPrefix := "https://duckduckgo.com/i.js?l=us-en&o=json&"
  const JsonTail := "f=,,,&p=1&v7exp=a"

  /** Both tokens read back from the JSON endpoint; `vqd` whenever `q` holds no `vqd=`. */
  lemma QueryBeforeVqd(q: string, vqd: string)
    ensures NoStop(q) ==> Extract(JsonPrefix + QKey + q + "&" + (VqdKey + vqd + "&" + JsonTail), QKey) == Some(q)
    ensures NoStop(vqd) && (forall p: nat :: !KeyAt(q, VqdKey, p)) ==>
      Extract(JsonPrefix + QKey + q + "&" + (VqdKey + vqd + "&" + JsonTail), VqdKey) == Some(vqd)
  {
    if NoStop(q) {
      assert 'q' !in JsonPrefix;
      ExtractEmbedded(JsonPrefix, QKey, q, VqdKey + vqd + "&" + JsonTail);
    }
    if NoStop(vqd) && (forall p: nat :: !KeyAt(q, VqdKey, p)) {
      VqdAfterQuery(JsonPrefix, q, vqd, JsonTail);
    }
  }

  /**
   * The `vqd` token written after the `q` token is read back when no `vqd=`
   * starts earlier: not in the prefix (it has no 'v'), not inside `q`, and not
   * across the `&` that closes `q`.
   */
  lemma VqdAfterQuery(prefix: string, q: string, vqd: string, tail: string)
    requires 'v' !in prefix && NoStop(vqd)
    requires forall p: nat :: !KeyAt(q, VqdKey, p)
    ensures Extract(prefix + QKey + q + "&" + (VqdKey + vqd + "&" + tail), VqdKey) == Some(vqd)
  {
    var before := prefix + QKey + q + "&";
    var s := before + VqdKey + vqd + "&" + tail;
    assert prefix + QKey + q + "&" + (VqdKey + vqd + "&" + tail) == s;
    var off := |prefix| + |QKey|;
    var e := off + |q|;
    forall p: nat | p < |before| ensures !KeyAt(s, VqdKey, p) {
      if p < |prefix| {
        assert s[p] == prefix[p];
        assert s[p] != VqdKey[0];
      } else if p < off {
        assert s[p] == QKey[p - |prefix|];
        assert s[p] != VqdKey[0];
      } else if p + |VqdKey| <= e {
        assert s[p..p + |VqdKey|] == q[p - off..p - off + |VqdKey|];
        assert !KeyAt(q, VqdKey, p - off);
      } else {
        assert s[e] == '&';
        assert p <= e < p + |VqdKey|;
        assert VqdKey[e - p] != '&';
      }
    }
    ExtractAfter(before, VqdKey, vqd, tail);
  }

  /** The field-for-field copy of the search engine's results. */
  method CommonFromDuckDuckGo(results: seq<DuckDuckGoImageResultData>) returns (common: seq<CommonImageResult>)
    ensures |common| == |results|
    ensures forall i :: 0 <= i < |common| ==>
      common[i].thumbnail == results[i].thumbnail && common[i].image == results[i].image
  {
    common := [];
    for i := 0 to |results|
      invariant |common| == i
      invariant forall k :: 0 <= k < i ==>
        common[k].thumbnail == results[k].thumbnail && common[k].image == results[k].image
    {
      var v := results[i];
      common := common + [CommonImageResult(v.thumbnail, v.image)];
    }
  }

  /**
   * The handler, given the page's script blocks and the outcome of the JSON
   * request built from what they held. A transport error on that request ends
   * the handler without a reply; a body that does not decode gives an empty list.
   */
  method GetDuckDuckGoImage(escapedQuery: string, scripts: seq<string>, response: Fetch<DuckDuckGoImageResult>)
    returns (pageURL: string, jsonURL: string, reply: Reply<seq<CommonImageResult>>)
    ensures pageURL == DuckDuckGoPageURL(escapedQuery)
    ensures jsonURL == DuckDuckGoJsonURL(LastValue(scripts, QKey), LastValue(scripts, VqdKey))
    ensures Extract(jsonURL, QKey) == Some(LastValue(scripts, QKey))
    ensures (forall p: nat :: !KeyAt(LastValue(scripts, QKey), VqdKey, p)) ==>
      Extract(jsonURL, VqdKey) == Some(LastValue(scripts, VqdKey))
    ensures response.TransportError? <==> reply.NoReply?
    ensures response.Received? && response.decoded.None? ==> reply == Success([])
    ensures response.Received? && response.decoded.Some? ==>
      reply.Success? && |reply.data| == |response.decoded.value.results| &&
      forall i :: 0 <= i < |reply.data| ==>
        reply.data[i] == CommonImageResult(response.decoded.value.results[i].thumbnail, response.decoded.value.results[i].image)
  {
    pageURL := DuckDuckGoPageURL(escapedQuery);
    var vqd, q := ScanScripts(scripts);
    jsonURL := DuckDuckGoJsonURL(q, vqd);
    if response.TransportError? {
      return pageURL, jsonURL, NoReply;
    }
    var decoded := response.decoded.GetOr(DuckDuckGoImageResult([]));
    var common := CommonFromDuckDuckGo(decoded.results);
    reply := Success(common);
  }

  // Google

  function GooglePageURL(escapedQuery: string): (url: string)
    ensures NoStop(escapedQuery) ==> Extract(url, QKey) == Some(escapedQuery)
  {
    var url := "https://www.google.co.id/search?" + QKey + escapedQuery + "&" + "source=lnms&tbm=isch";
    if NoStop(escapedQuery) then
      assert 'q' !in "https://www.google.co.id/search?";
      ExtractEmbedded("https://www.google.co.id/search?", QKey, escapedQuery, "source=lnms&tbm=isch");
      url
    else url
  }

  /**
   * The per-script closure: `found[k]` is what the image-URL pattern found in
   * the k-th script; a non-empty list replaces the kept one.
   */
  method LastNonEmptyMatches(found: seq<seq<string>>) returns (resultImage: seq<string>)
    ensures (forall k :: 0 <= k < |found| ==> found[k] == []) ==> resultImage == []
    ensures forall k :: 0 <= k < |found| && found[k] != [] && (forall m :: k < m < |found| ==> found[m] == []) ==>
      resultImage == found[k]
  {
    resultImage := [];
    for i := 0 to |found|
      invariant (forall k :: 0 <= k < i ==> found[k] == []) ==> resultImage == []
      invariant forall k :: 0 <= k < i && found[k] != [] && (forall m :: k < m < i ==> found[m] == []) ==>
        resultImage == found[k]
    {
      if |found[i]| > 0 {
        resultImage := found[i];
      }
    }
  }

  /** Each found URL becomes a pair whose thumbnail and image are that URL. */
  method CommonFromUrls(resultImage: seq<string>) returns (common: seq<CommonImageResult>)
    ensures |common| == |resultImage|
    ensures forall i :: 0 <= i < |common| ==> common[i].thumbnail == common[i].image == resultImage[i]
  {
    common := [];
    for i := 0 to |resultImage|
      invariant |common| == i
      invariant forall k :: 0 <= k < i ==> common[k].thumbnail == common[k].image == resultImage[k]
    {
      common := common + [CommonImageResult(resultImage[i], resultImage[i])];
    }
  }

  method GetGoogleImage(escapedQuery: string, found: seq<seq<string>>)
    returns (pageURL: string, results: seq<CommonImageResult>)
    ensures pageURL == GooglePageURL(escapedQuery)
    ensures (forall k :: 0 <= k < |found| ==> found[k] == []) ==> results == []
    ensures forall k :: 0 <= k < |found| && found[k] != [] && (forall m :: k < m < |found| ==> found[m] == []) ==>
      |results| == |found[k]| && forall i :: 0 <= i < |results| ==> results[i] == CommonImageResult(found[k][i], found[k][i])
  {
    pageURL := GooglePageURL(escapedQuery);
    var resultImage := LastNonEmptyMatches(found);
    results := CommonFromUrls(resultImage);
  }
}
