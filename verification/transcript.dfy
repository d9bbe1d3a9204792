/** The transcript resolver, `get_transcript`: the caption fragments the
    transcript library returns are joined into one text with single spaces,
    in their original order. The library call itself is an input here. */
module Transcript {
  import opened Wrappers

  /** The separator of `' '.join(...)`. */
  const Separator: char := ' '

  /** The language preference passed to the transcript library. */
  const Languages: seq<string> := ["en"]

  /** One caption fragment as the library returns it; only its text is used. */
  datatype Fragment = Fragment(text: string)

  /** The list comprehension `[entry.text for entry in transcript]`. */
  function Texts(fragments: seq<Fragment>): (texts: seq<string>)
    ensures |texts| == |fragments|
    ensures forall k :: 0 <= k < |fragments| ==> texts[k] == fragments[k].text
  {
    seq(|fragments|, k requires 0 <= k < |fragments| => fragments[k].text)
  }

  /** Sum of the lengths of the parts. */
  function TotalLength(parts: seq<string>): nat {
    if |parts| == 0 then 0 else |parts[0]| + TotalLength(parts[1..])
  }

  /** Number of occurrences of `c` in `s`. */
  function Count(s: string, c: char): nat {
    if |s| == 0 then 0 else (if s[0] == c then 1 else 0) + Count(s[1..], c)
  }

  /** `' '.join(parts)`: every part, in order, with one separator between
      neighbours and none at either end. */
  function Join(parts: seq<string>): (r: string)
    ensures |parts| == 0 ==> r == ""
    ensures |parts| > 0 ==> |r| == TotalLength(parts) + |parts| - 1
    ensures |parts| > 0 ==> r[..|parts[0]|] == parts[0]
    ensures |parts| > 0 && (forall k :: 0 <= k < |parts| ==> Separator !in parts[k]) ==>
      Count(r, Separator) == |parts| - 1
  {
    if |parts| == 0 then ""
    else if |parts| == 1 then CountAbsent(parts[0], Separator); parts[0]
    else
      var tail := Join(parts[1..]);
      CountConcat(parts[0] + [Separator], tail, Separator);
      CountConcat(parts[0], [Separator], Separator);
      CountAbsent(parts[0], Separator);
      parts[0] + [Separator] + tail
  }

  /** Python's `s.split(' ')`: the maximal separator-free pieces of `s`,
      empty pieces included. Serves as the inverse of `Join`. */
  function Split(s: string): (r: seq<string>)
    ensures |r| == Count(s, Separator) + 1
    ensures forall k :: 0 <= k < |r| ==> Separator !in r[k]
  {
    if |s| == 0 then [""]
    else
      var rest := Split(s[1..]);
      if s[0] == Separator then [""] + rest
      else [[s[0]] + rest[0]] + rest[1..]
  }

  /** Counting distributes over concatenation. */
  /** A character that does not occur is counted zero times. */
  lemma {:induction false} CountAbsent(s: string, c: char)
    ensures c !in s ==> Count(s, c) == 0
  {
    if |s| > 0 && c !in s {
      assert c !in s[1..];
      CountAbsent(s[1..], c);
    }
  }

  lemma {:induction false} CountConcat(a: string, b: string, c: char)
    ensures Count(a + b, c) == Count(a, c) + Count(b, c)
    decreases |a|
  {
    if |a| == 0 {
      assert a + b == b;
    } else {
      assert (a + b)[1..] == a[1..] + b;
      CountConcat(a[1..], b, c);
    }
  }

  /** Joining the pieces of a split gives back the text: no character is
      lost, added or moved. */
  lemma {:induction false} JoinSplit(s: string)
    ensures Join(Split(s)) == s
    decreases |s|
  {
    if |s| == 0 {
    } else {
      var rest := Split(s[1..]);
      JoinSplit(s[1..]);
      if s[0] == Separator {
        assert ([""] + rest)[1..] == rest;
        assert s == [Separator] + s[1..];
      } else if |rest| == 1 {
        assert s == [s[0]] + s[1..];
      } else {
        var parts := [[s[0]] + rest[0]] + rest[1..];
        assert parts[1..] == rest[1..];
        assert Join(rest) == rest[0] + [Separator] + Join(rest[1..]);
        assert s == [s[0]] + s[1..];
      }
    }
  }

  /** Splitting text that starts with a separator-free `a` puts `a` in
      front of the first piece of the rest. */
  lemma {:induction false} SplitAfterPlainPrefix(a: string, t: string)
    requires Separator !in a
    ensures Split(a + t) == [a + Split(t)[0]] + Split(t)[1..]
    decreases |a|
  {
    if |a| == 0 {
      assert a + t == t;
      var r := Split(t);
      assert r == [r[0]] + r[1..];
      assert a + r[0] == r[0];
    } else {
      assert (a + t)[1..] == a[1..] + t;
      assert a[0] != Separator;
      SplitAfterPlainPrefix(a[1..], t);
      assert [a[0]] + (a[1..] + Split(t)[0]) == a + Split(t)[0];
    }
  }

  /** Splitting a join of separator-free parts recovers the parts: for such
      fragments the transcript text determines the fragment list. */
  lemma {:induction false} SplitJoin(parts: seq<string>)
    requires |parts| > 0
    requires forall k :: 0 <= k < |parts| ==> Separator !in parts[k]
    ensures Split(Join(parts)) == parts
    decreases |parts|
  {
    if |parts| == 1 {
      SplitAfterPlainPrefix(parts[0], "");
      assert parts[0] + "" == parts[0];
    } else {
      var tail := parts[1..];
      SplitJoin(tail);
      var t := [Separator] + Join(tail);
      assert Split(t) == [""] + Split(Join(tail)) by {
        assert t[1..] == Join(tail);
      }
      SplitAfterPlainPrefix(parts[0], t);
      assert Split(t)[0] == "" && Split(t)[1..] == tail;
      assert parts[0] + [Separator] + Join(tail) == parts[0] + t;
      assert parts[0] + "" == parts[0];
      assert parts == [parts[0]] + tail;
    }
  }

  /** Joining two non-empty lists back to back is joining each and putting
      one separator between the results: the order of fragments is kept. */
  lemma {:induction false} JoinAppend(a: seq<string>, b: seq<string>)
    requires |a| > 0 && |b| > 0
    ensures Join(a + b) == Join(a) + [Separator] + Join(b)
    decreases |a|
  {
    if |a| == 1 {
      assert (a + b)[1..] == b;
    } else {
      assert (a + b)[1..] == a[1..] + b;
      JoinAppend(a[1..], b);
    }
  }

  /** The joined text is empty exactly when there are no fragments or a
      single empty one: two or more fragments always leave a separator. */
  lemma JoinEmptyIff(parts: seq<string>)
    ensures Join(parts) == "" <==> |parts| == 0 || parts == [""]
  {
  }

  /** `["a","b","c"]` joins to `"a b c"`. */
  lemma JoinThreeFragments()
    ensures Join(["a", "b", "c"]) == "a b c"
  {
  }

  /** `get_transcript`: `None` when the library call failed (captions
      disabled, no English track, or any other error), otherwise the joined
      fragment texts. */
  function GetTranscript(fetched: Option<seq<Fragment>>): (r: Option<string>)
    ensures r.None? <==> fetched.None?
    ensures r.Some? ==> r.value == Join(Texts(fetched.value))
    ensures r.Some? ==> (r.value == "" <==> Texts(fetched.value) == [] || Texts(fetched.value) == [""])
  {
    match fetched
    case None => None
    case Some(fragments) =>
      var texts := Texts(fragments);
      JoinEmptyIff(texts);
      Some(Join(texts))
  }
}
