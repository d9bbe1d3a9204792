/** The URL parser: `extract_video_id`, a Python `re.search` with the pattern
    `(?:v=|\/)([0-9A-Za-z_-]{11}).*`.

    `re.search` tries every start index from left to right and returns the
    first one at which the whole pattern matches. At one index at most one of
    the two markers `v=` and `/` can begin (they start with different
    characters), so a match at index `i` is: the marker, then exactly eleven
    identifier characters. The trailing `.*` matches any (possibly empty) rest
    of the line and so constrains nothing. */
module VideoId {
  import opened Wrappers

  /** The `{11}` repetition count of the pattern. */
  const IdLength: nat := 11

  /** The character class `[0-9A-Za-z_-]`. */
  predicate IsIdChar(c: char) {
    || ('0' <= c <= '9')
    || ('A' <= c <= 'Z')
    || ('a' <= c <= 'z')
    || c == '_'
    || c == '-'
  }

  /** Eleven characters of the identifier class: what the capture group holds. */
  predicate IsVideoId(s: string) {
    |s| == IdLength && forall k :: 0 <= k < |s| ==> IsIdChar(s[k])
  }

  /** Length of the marker (`v=` is 2, `/` is 1) that begins at index `i`,
      or 0 when neither does. */
  function MarkerLength(url: string, i: nat): (n: nat)
    requires i <= |url|
    ensures n <= 2 && i + n <= |url|
  {
    if i + 2 <= |url| && url[i] == 'v' && url[i + 1] == '=' then 2
    else if i < |url| && url[i] == '/' then 1
    else 0
  }

  /** The pattern matches with its match starting at index `i`. */
  predicate MatchesAt(url: string, i: nat) {
    && i <= |url|
    && MarkerLength(url, i) > 0
    && i + MarkerLength(url, i) + IdLength <= |url|
    && IsVideoId(url[i + MarkerLength(url, i) .. i + MarkerLength(url, i) + IdLength])
  }

  /** The text of capture group 1 for a match starting at `i`. */
  function CaptureAt(url: string, i: nat): string
    requires MatchesAt(url, i)
  {
    url[i + MarkerLength(url, i) .. i + MarkerLength(url, i) + IdLength]
  }

  /** No match starts at an index in `[lo, hi)`. */
  predicate NoMatchIn(url: string, lo: nat, hi: nat) {
    forall k :: lo <= k < hi ==> !MatchesAt(url, k)
  }

  /** `i` is the start index `re.search` reports: the first index with a match. */
  predicate IsLeftmostMatch(url: string, i: nat) {
    MatchesAt(url, i) && NoMatchIn(url, 0, i)
  }

  /** The scan of `re.search` from start index `i` onwards: the first index
      at or after `i` where a match starts, or `|url|` when there is none. */
  function FirstMatchFrom(url: string, i: nat): (j: nat)
    requires i <= |url|
    ensures i <= j <= |url|
    ensures NoMatchIn(url, i, j)
    ensures j < |url| ==> MatchesAt(url, j)
    decreases |url| - i
  {
    if i == |url| || MatchesAt(url, i) then i else FirstMatchFrom(url, i + 1)
  }

  /** `extract_video_id(url)`: the capture group of the leftmost match, or `None`. */
  function ExtractVideoId(url: string): (r: Option<string>)
    ensures r.None? <==> NoMatchIn(url, 0, |url|)
    ensures r.Some? ==> IsVideoId(r.value)
    ensures r.Some? ==> exists i :: IsLeftmostMatch(url, i) && r.value == CaptureAt(url, i)
    ensures forall i :: IsLeftmostMatch(url, i) ==> r == Some(CaptureAt(url, i))
  {
    var j := FirstMatchFrom(url, 0);
    if j < |url| then
      assert IsLeftmostMatch(url, j);
      Some(CaptureAt(url, j))
    else
      None
  }

  /** A marker followed by an id at the very start of the URL is the match,
      whatever follows the id (further id characters included). */
  lemma MarkerThenIdAtStart(id: string, rest: string)
    requires IsVideoId(id)
    ensures ExtractVideoId("v=" + id + rest) == Some(id)
    ensures ExtractVideoId("/" + id + rest) == Some(id)
  {
  }

  /** `v=` is recognised anywhere, not only after `?` or `&`: behind any prefix
      free of `/` and `=` the id after `v=` is the result. */
  lemma {:induction false} QueryMarkerAnywhere(prefix: string, id: string, rest: string)
    requires '/' !in prefix && '=' !in prefix
    requires IsVideoId(id)
    ensures ExtractVideoId(prefix + "v=" + id + rest) == Some(id)
  {
    var url := prefix + "v=" + id + rest;
    var p := |prefix|;
    forall k | 0 <= k < p
      ensures !MatchesAt(url, k)
    {
      assert url[k] == prefix[k];
      if k + 1 < p {
        assert url[k + 1] == prefix[k + 1];
      } else {
        assert url[k + 1] == 'v';
      }
    }
    assert url[p] == 'v' && url[p + 1] == '=';
    assert url[p + 2 .. p + 2 + IdLength] == id;
    assert IsLeftmostMatch(url, p);
  }

  /** No match starts inside a stretch of the URL free of `/` and `v`. */
  lemma NoMarkerNoMatch(url: string, before: string, stretch: string)
    requires before + stretch <= url
    requires '/' !in stretch && 'v' !in stretch
    ensures NoMatchIn(url, |before|, |before| + |stretch|)
  {
  }

  /** Match-free index ranges that meet form one match-free range. */
  lemma NoMatchInJoin(url: string, lo: nat, mid: nat, hi: nat)
    requires lo <= mid <= hi
    requires NoMatchIn(url, lo, mid) && NoMatchIn(url, mid, hi)
    ensures NoMatchIn(url, lo, hi)
  {
  }

  /** A match only looks forward from where it starts: whatever precedes a
      text does not change whether a match starts at a given index of it. */
  lemma MatchShift(a: string, b: string, k: nat)
    ensures MatchesAt(a + b, |a| + k) <==> MatchesAt(b, k)
  {
    var u := a + b;
    if k <= |b| {
      assert MarkerLength(u, |a| + k) == MarkerLength(b, k) by {
        if k < |b| { assert u[|a| + k] == b[k]; }
        if k + 1 < |b| { assert u[|a| + k + 1] == b[k + 1]; }
      }
      var m := MarkerLength(b, k);
      if k + m + IdLength <= |b| {
        assert u[|a| + k + m .. |a| + k + m + IdLength] == b[k + m .. k + m + IdLength];
      }
    }
  }

  /** A match-free range of `b` stays match-free behind any prefix. */
  lemma NoMatchShift(a: string, b: string, lo: nat, hi: nat)
    requires NoMatchIn(b, lo, hi)
    ensures NoMatchIn(a + b, |a| + lo, |a| + hi)
  {
    forall k | |a| + lo <= k < |a| + hi
      ensures !MatchesAt(a + b, k)
    {
      MatchShift(a, b, k - |a|);
    }
  }

  /** If no match starts in `a + b` before `b`, the id is what `b` yields. */
  lemma ExtractBehindPrefix(a: string, b: string, id: string)
    requires NoMatchIn(a + b, 0, |a|)
    requires MatchesAt(b, 0) && CaptureAt(b, 0) == id
    ensures ExtractVideoId(a + b) == Some(id)
  {
    MatchShift(a, b, 0);
    var u := a + b;
    var m := MarkerLength(b, 0);
    assert MarkerLength(u, |a|) == m by {
      assert u[|a|] == b[0];
      if 1 < |b| { assert u[|a| + 1] == b[1]; }
    }
    assert CaptureAt(u, |a|) == CaptureAt(b, 0) by {
      assert u[|a| + m .. |a| + m + IdLength] == b[m .. m + IdLength];
    }
    assert IsLeftmostMatch(u, |a|);
  }

  /** No match starts at a `/` whose eleven-character window holds a
      character outside the identifier class (or runs past the end). */
  lemma BlockedSlash(url: string, k: nat, d: nat)
    requires k < d < |url| && d <= k + IdLength
    requires url[k] == '/' && !IsIdChar(url[d])
    ensures !MatchesAt(url, k)
  {
  }

  /** The scan reports the first match: a URL that begins with `/` and twelve
      identifier characters yields the first eleven of them, even though a
      `v=` with a well-formed id follows. */
  lemma LeftmostMatchWins()
    ensures ExtractVideoId("/abcdefghijkl?v=XXXXXXXXXXX") == Some("abcdefghijk")
  {
    var id, rest := "abcdefghijk", "l?v=XXXXXXXXXXX";
    assert IsVideoId(id) by {
      forall k | 0 <= k < |id| ensures IsIdChar(id[k]) {
        assert 'a' <= id[k] <= 'k';
      }
    }
    var url := "/" + id + rest;
    assert url == "/abcdefghijkl?v=XXXXXXXXXXX";
    MarkerThenIdAtStart(id, rest);
    assert ExtractVideoId(url) == Some(id);
  }

  /** No match starts in `//youtu.be`, whatever follows it. */
  lemma ShortLinkHostHasNoMatch(tail: string)
    ensures NoMatchIn("//" + ("youtu.be" + tail), 0, 10)
  {
    var host := "youtu.be" + tail;
    NoMarkerNoMatch(host, [], "youtu.be");
    NoMatchShift("//", host, 0, 8);
    BlockedSlash("//" + host, 0, 1);
    BlockedSlash("//" + host, 1, 7);
    NoMatchInJoin("//" + host, 0, 2, 10);
  }

  /** No match starts in `https://youtu.be`, whatever follows it. */
  lemma ShortLinkSiteHasNoMatch(tail: string)
    ensures NoMatchIn("https://youtu.be" + tail, 0, 16)
  {
    var slashes := "//" + ("youtu.be" + tail);
    ShortLinkHostHasNoMatch(tail);
    NoMarkerNoMatch("https:" + slashes, [], "https:");
    NoMatchShift("https:", slashes, 0, 10);
    NoMatchInJoin("https:" + slashes, 0, 6, 16);
    assert "https:" + slashes == "https://youtu.be" + tail;
  }

  /** A short link `https://youtu.be/<id>` yields its id, whatever follows. */
  lemma {:induction false} ShortLinkYieldsId(id: string, rest: string)
    requires IsVideoId(id)
    ensures ExtractVideoId("https://youtu.be/" + id + rest) == Some(id)
  {
    var path := "/" + id + rest;
    assert "https://youtu.be/" + id + rest == "https://youtu.be" + path;
    assert MatchesAt(path, 0) && CaptureAt(path, 0) == id by {
      assert path[1..1 + IdLength] == id;
    }
    ShortLinkSiteHasNoMatch(path);
    ExtractBehindPrefix("https://youtu.be", path, id);
  }
}
