/**
 * The token rule both DuckDuckGo scrapers apply to inline script text: the
 * regular expression `vqd=(.*?)&` (and `q=(.*?)&`), searched leftmost-first,
 * with `.` matching any character except a newline and the lazy star taking
 * as little as it can. It is written here as an explicit search, and the
 * search is proved equal to that reading of the pattern.
 */
module ScriptSearch {
  import opened Wrappers

  const VqdKey := "vqd="
  const QKey := "q="

  /** The characters that end a token: the `&` the pattern wants, or a newline `.` cannot cross. */
  predicate IsStop(c: char) { c == '&' || c == '\n' }

  predicate NoStop(v: string) {
    forall k :: 0 <= k < |v| ==> !IsStop(v[k])
  }

  predicate KeyAt(s: string, key: string, i: nat) {
    i + |key| <= |s| && s[i..i + |key|] == key
  }

  /**
   * The pattern `key(.*?)&` can match at position `i`: `key` starts there and
   * an `&` follows it with no newline in between.
   */
  ghost predicate MatchesAt(s: string, key: string, i: nat) {
    KeyAt(s, key, i) &&
    exists j :: i + |key| <= j < |s| && s[j] == '&' &&
      forall k :: i + |key| <= k < j ==> s[k] != '\n'
  }

  /** The longest prefix of `t` holding no `&` and no newline. */
  function Span(t: string): (v: string)
    ensures |v| <= |t| && v == t[..|v|] && NoStop(v)
    ensures |v| < |t| ==> IsStop(t[|v|])
  {
    if t == [] || IsStop(t[0]) then [] else [t[0]] + Span(t[1..])
  }

  /** The captured text if the pattern matches at `i`. */
  function MatchAt(s: string, key: string, i: nat): (r: Option<string>)
    ensures r.Some? ==> KeyAt(s, key, i) && NoStop(r.value)
    ensures r.Some? ==> i + |key| + |r.value| < |s|
    ensures r.Some? ==> s[i + |key|..i + |key| + |r.value|] == r.value && s[i + |key| + |r.value|] == '&'
  {
    if KeyAt(s, key, i) then
      var rest := s[i + |key|..];
      var v := Span(rest);
      if |v| < |rest| && rest[|v|] == '&' then Some(v) else None
    else None
  }

  /** The explicit search agrees with the pattern's meaning at every position. */
  lemma MatchAtIffMatches(s: string, key: string, i: nat)
    ensures MatchAt(s, key, i).Some? <==> MatchesAt(s, key, i)
  {
    if MatchAt(s, key, i).Some? {
      var v := MatchAt(s, key, i).value;
      var j := i + |key| + |v|;
      forall k | i + |key| <= k < j ensures s[k] != '\n' {
        assert s[k] == v[k - i - |key|];
      }
    }
    if MatchesAt(s, key, i) {
      MatchesAtIsFound(s, key, i);
    }
  }

  lemma MatchesAtIsFound(s: string, key: string, i: nat)
    requires MatchesAt(s, key, i)
    ensures MatchAt(s, key, i).Some?
  {
    var j :| i + |key| <= j < |s| && s[j] == '&' && forall k :: i + |key| <= k < j ==> s[k] != '\n';
    var off := i + |key|;
    var rest := s[off..];
    var v := Span(rest);
    assert forall p :: 0 <= p < |v| ==> v[p] == s[off + p];
    assert |v| <= j - off;
    assert |v| < |rest|;
    assert rest[|v|] == s[off + |v|];
  }

  /** The leftmost position at or after `from` where the pattern matches. */
  function FindIndexFrom(s: string, key: string, from: nat): (r: Option<nat>)
    decreases |s| + 1 - from
    ensures r.Some? ==> from <= r.value <= |s| && MatchAt(s, key, r.value).Some?
    ensures forall j: nat :: from <= j && (r.None? || j < r.value) ==> MatchAt(s, key, j).None?
  {
    if from > |s| then None
    else if MatchAt(s, key, from).Some? then Some(from)
    else FindIndexFrom(s, key, from + 1)
  }

  /** The text captured by the leftmost match of `key(.*?)&` in `js`, if any. */
  function Extract(js: string, key: string): (r: Option<string>)
    ensures r.Some? ==> NoStop(r.value)
  {
    match FindIndexFrom(js, key, 0)
    case None => None
    case Some(i) => MatchAt(js, key, i)
  }

  /**
   * Go's `FindString`: the whole leftmost match (key, captured text and the
   * closing `&`), or the empty string when nothing matches.
   */
  function FindString(js: string, key: string): (m: string)
    ensures m == "" <==> Extract(js, key).None?
    ensures Extract(js, key).Some? ==> m == key + Extract(js, key).value + "&"
  {
    match Extract(js, key)
    case None => ""
    case Some(v) => key + v + "&"
  }

  /** Extraction finds nothing exactly when the pattern matches nowhere. */
  lemma ExtractNone(js: string, key: string)
    ensures Extract(js, key).None? <==> forall i: nat :: !MatchesAt(js, key, i)
  {
    if Extract(js, key).None? {
      forall i: nat ensures !MatchesAt(js, key, i) {
        MatchAtIffMatches(js, key, i);
      }
    } else {
      var i := FindIndexFrom(js, key, 0).value;
      MatchAtIffMatches(js, key, i);
    }
  }

  /**
   * When the pattern first matches at `i`, extraction returns the text between
   * the key at `i` and the nearest following `&`.
   */
  lemma ExtractIsLeftmost(js: string, key: string, i: nat)
    requires MatchesAt(js, key, i)
    requires forall j: nat :: j < i ==> !MatchesAt(js, key, j)
    ensures Extract(js, key) == MatchAt(js, key, i)
    ensures Extract(js, key).Some?
  {
    MatchAtIffMatches(js, key, i);
    var r := FindIndexFrom(js, key, 0);
    assert r.Some? && r.value <= i;
    if r.value < i {
      MatchAtIffMatches(js, key, r.value);
      assert false;
    }
  }

  lemma {:induction false} SpanStopsAt(v: string, c: char, rest: string)
    requires NoStop(v) && IsStop(c)
    ensures Span(v + [c] + rest) == v
  {
    if v != [] {
      assert (v + [c] + rest)[1..] == v[1..] + [c] + rest;
      SpanStopsAt(v[1..], c, rest);
      assert [v[0]] + v[1..] == v;
    }
  }

  /**
   * A token written after `key` and closed by `&` is read back by extraction,
   * provided no occurrence of the key starts before it.
   */
  lemma ExtractAfter(before: string, key: string, v: string, after: string)
    requires NoStop(v)
    requires forall p: nat :: p < |before| ==> !KeyAt(before + key + v + "&" + after, key, p)
    ensures Extract(before + key + v + "&" + after, key) == Some(v)
  {
    var s := before + key + v + "&" + after;
    var i := |before|;
    assert s[i..i + |key|] == key;
    assert s[i + |key|..] == v + ['&'] + after;
    SpanStopsAt(v, '&', after);
    assert MatchAt(s, key, i) == Some(v);
  }

  /** The same, when the text before the token does not even hold the key's first letter. */
  lemma ExtractEmbedded(before: string, key: string, v: string, after: string)
    requires |key| > 0 && key[0] !in before
    requires NoStop(v)
    ensures Extract(before + key + v + "&" + after, key) == Some(v)
  {
    var s := before + key + v + "&" + after;
    forall p: nat | p < |before| ensures !KeyAt(s, key, p) {
      assert s[p] == before[p];
    }
    ExtractAfter(before, key, v, after);
  }

  /**
   * Last match wins: the value left after scanning `scripts` in order, where a
   * script without a match keeps the previous value and the start value is "".
   */
  function LastValue(scripts: seq<string>, key: string): (v: string)
    ensures NoStop(v)
  {
    if scripts == [] then ""
    else
      match Extract(scripts[|scripts| - 1], key)
      case Some(v) => v
      case None => LastValue(scripts[..|scripts| - 1], key)
  }

  /** A non-empty value is what some script yields. */
  lemma {:induction false} LastValueFromSomeScript(scripts: seq<string>, key: string)
    ensures LastValue(scripts, key) != "" ==>
      exists k :: 0 <= k < |scripts| && Extract(scripts[k], key) == Some(LastValue(scripts, key))
  {
    if scripts != [] && Extract(scripts[|scripts| - 1], key).None? {
      var init := scripts[..|scripts| - 1];
      LastValueFromSomeScript(init, key);
      if LastValue(init, key) != "" {
        var k :| 0 <= k < |init| && Extract(init[k], key) == Some(LastValue(init, key));
        assert scripts[k] == init[k];
      }
    }
  }

  /** With no match in any script the value stays empty. */
  lemma {:induction false} LastValueNoMatch(scripts: seq<string>, key: string)
    requires forall k :: 0 <= k < |scripts| ==> Extract(scripts[k], key).None?
    ensures LastValue(scripts, key) == ""
  {
    if scripts != [] {
      LastValueNoMatch(scripts[..|scripts| - 1], key);
    }
  }

  /** The value comes from the last script that has a match. */
  lemma {:induction false} LastValueIsLastMatch(scripts: seq<string>, key: string, k: nat)
    requires k < |scripts| && Extract(scripts[k], key).Some?
    requires forall m :: k < m < |scripts| ==> Extract(scripts[m], key).None?
    ensures LastValue(scripts, key) == Extract(scripts[k], key).value
  {
    if k < |scripts| - 1 {
      LastValueIsLastMatch(scripts[..|scripts| - 1], key, k);
    }
  }

  /**
   * The closure both scrapers run over the `<script>` blocks of the page body,
   * in document order: each block may overwrite `vqd` and `q`.
   */
  method ScanScripts(scripts: seq<string>) returns (vqd: string, q: string)
    ensures vqd == LastValue(scripts, VqdKey) && q == LastValue(scripts, QKey)
    ensures NoStop(vqd) && NoStop(q)
  {
    vqd, q := "", "";
    for i := 0 to |scripts|
      invariant vqd == LastValue(scripts[..i], VqdKey)
      invariant q == LastValue(scripts[..i], QKey)
      invariant NoStop(vqd) && NoStop(q)
    {
      var js := scripts[i];
      assert scripts[..i + 1][..i] == scripts[..i];
      var vqdFound := FindString(js, VqdKey);
      if |vqdFound| > 0 {
        vqd := vqdFound[4..];
        vqd := vqd[0..|vqd| - 1];
      }
      var qFound := FindString(js, QKey);
      if |qFound| > 0 {
        q := qFound[2..];
        q := q[0..|q| - 1];
      }
    }
    assert scripts[..|scripts|] == scripts;
  }
}
