/**
 * The one URL shape every TheMovieDB request in the scrapers uses:
 * `https://api.themoviedb.org/3/` + path + `?api_key=` + key + extra,
 * where `extra` is empty or further `&`-separated parameters. The parser
 * is a simple reading of the URL, enough to show that each request carries
 * its path, key and extra parameters; the round-trip lemma says what each
 * request builder actually asks for.
 */
module Tmdb {
  import opened Wrappers
  import opened Text

  const ApiRoot := "https://api.themoviedb.org/3/"
  const KeyParam := "api_key="

  /** The parts a provider reads back from a request URL. */
  datatype ApiRequest = ApiRequest(path: string, key: string, extra: string)

  function ApiURL(path: string, key: string, extra: string): (url: string)
    ensures ApiRoot <= url
  {
    ApiRoot + (path + ("?" + (KeyParam + (key + extra))))
  }

  /**
   * Reads a request URL: the path runs to the first `?`, the key runs from
   * `api_key=` to the next `&`, and whatever follows is `extra`.
   */
  function ParseApiURL(url: string): (r: Option<ApiRequest>)
    ensures r.Some? ==> '?' !in r.value.path && '&' !in r.value.key
    ensures r.Some? ==> r.value.extra == [] || r.value.extra[0] == '&'
    ensures r.Some? ==> url == ApiURL(r.value.path, r.value.key, r.value.extra)
  {
    match StripPrefix(url, ApiRoot)
    case None => None
    case Some(rest) =>
      match SplitAt(rest, '?')
      case None => None
      case Some((path, query)) =>
        assert rest == path + ("?" + query);
        match StripPrefix(query, KeyParam)
        case None => None
        case Some(params) =>
          match SplitAt(params, '&')
          case None =>
            assert params + [] == params;
            Some(ApiRequest(path, params, []))
          case Some((key, tail)) =>
            assert params == key + ("&" + tail);
            Some(ApiRequest(path, key, "&" + tail))
  }

  /**
   * A URL built from a path without `?`, a key without `&` and an `extra`
   * that is empty or starts with `&` is read back as exactly those parts.
   */
  lemma ParseApiURLRoundTrip(path: string, key: string, extra: string)
    requires '?' !in path && '&' !in key
    requires extra == [] || extra[0] == '&'
    ensures ParseApiURL(ApiURL(path, key, extra)) == Some(ApiRequest(path, key, extra))
  {
    var query := KeyParam + (key + extra);
    StripPrefixJoin(ApiRoot, path + ("?" + query));
    assert path + ("?" + query) == path + ['?'] + query;
    SplitAtJoin(path, '?', query);
    StripPrefixJoin(KeyParam, key + extra);
    if extra == [] {
      assert key + extra == key;
    } else {
      assert key + extra == key + ['&'] + extra[1..];
      SplitAtJoin(key, '&', extra[1..]);
      assert "&" + extra[1..] == extra;
    }
  }

  /** Two requests with different parts never share a URL. */
  lemma ApiURLInjective(a: ApiRequest, b: ApiRequest)
    requires '?' !in a.path && '&' !in a.key && (a.extra == [] || a.extra[0] == '&')
    requires '?' !in b.path && '&' !in b.key && (b.extra == [] || b.extra[0] == '&')
    requires a != b
    ensures ApiURL(a.path, a.key, a.extra) != ApiURL(b.path, b.key, b.extra)
  {
    ParseApiURLRoundTrip(a.path, a.key, a.extra);
    ParseApiURLRoundTrip(b.path, b.key, b.extra);
  }
}
