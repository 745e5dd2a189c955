/**
 * How Go's `net/url` turns a URL into the query parameters a handler reads: `url.Parse` drops
 * the fragment and keeps the text after the first '?' as the raw query, `url.ParseQuery`
 * splits it on '&', skips empty segments and segments holding ';', splits each segment at its
 * first '=', and `Values.Get` answers with the first value given for a key. Percent-decoding
 * is not modelled: the lemmas that use this module keep '%' and '+' out of the values involved.
 */
module UrlQuery {

  /** `strings.IndexByte`: the first index of `c` in `s`, or -1. */
  function IndexOf(s: string, c: char): (i: int)
    ensures -1 <= i < |s|
    ensures i == -1 <==> c !in s
    ensures 0 <= i ==> s[i] == c && c !in s[..i]
    decreases |s|
  {
    if |s| == 0 then -1
    else if s[0] == c then 0
    else
      var j := IndexOf(s[1..], c);
      assert s == [s[0]] + s[1..];
      if j == -1 then -1
      else
        assert s[..j + 1] == [s[0]] + s[1..][..j];
        j + 1
  }

  /** The first '?' of `a + b` is the first of `b` when `a` has none. */
  lemma {:induction false} IndexOfAfter(a: string, b: string, c: char)
    requires c !in a
    ensures IndexOf(a + b, c) == if c in b then |a| + IndexOf(b, c) else -1
    decreases |a|
  {
    if a != [] {
      assert (a + b)[1..] == a[1..] + b;
      IndexOfAfter(a[1..], b, c);
    } else {
      assert a + b == b;
    }
  }

  /** Appending text after an occurrence does not move the first occurrence. */
  lemma {:induction false} IndexOfBefore(a: string, b: string, c: char)
    requires c in a
    ensures IndexOf(a + b, c) == IndexOf(a, c)
    decreases |a|
  {
    if a[0] != c {
      assert (a + b)[1..] == a[1..] + b;
      assert a == [a[0]] + a[1..];
      IndexOfBefore(a[1..], b, c);
    }
  }

  /** The text before the first `c`, or all of `s` when there is none (`strings.Cut`). */
  function Before(s: string, c: char): string
  {
    var i := IndexOf(s, c);
    if i < 0 then s else s[..i]
  }

  /** The text after the first `c`, or "" when there is none (`strings.Cut`). */
  function After(s: string, c: char): string
  {
    var i := IndexOf(s, c);
    if i < 0 then "" else s[i + 1..]
  }

  /** `url.Parse(url).RawQuery` */
  function RawQuery(url: string): string
  {
    After(Before(url, '#'), '?')
  }

  /** `strings.LastIndexByte`: the last index of `c` in `s`, or -1. */
  function LastIndexOf(s: string, c: char): (i: int)
    ensures -1 <= i < |s|
    ensures i == -1 <==> c !in s
    ensures 0 <= i ==> s[i] == c && forall k :: i < k < |s| ==> s[k] != c
    decreases |s|
  {
    if |s| == 0 then -1
    else if s[|s| - 1] == c then |s| - 1
    else
      var init := s[..|s| - 1];
      var last := s[|s| - 1];
      var j := LastIndexOf(init, c);
      assert s == init + [last];
      if j < 0 then
        assert forall k :: 0 <= k < |s| - 1 ==> s[k] == init[k];
        -1
      else
        assert forall k :: 0 <= k < |s| - 1 ==> s[k] == init[k];
        j
  }

  /**
   * `strings.Split(s, string(sep))`: the pieces between the separators, at least one; the
   * last piece is the text after the last separator.
   */
  function Split(s: string, sep: char): (parts: seq<string>)
    ensures |parts| >= 1
    decreases |s|
  {
    var i := LastIndexOf(s, sep);
    if i < 0 then [s] else Split(s[..i], sep) + [s[i + 1..]]
  }

  /** Text without the separator is a single piece. */
  lemma SplitNone(s: string, sep: char)
    requires sep !in s
    ensures Split(s, sep) == [s]
  {
  }

  /** A separator followed by text without one adds exactly that text as the last piece. */
  lemma SplitAppendLast(a: string, b: string, sep: char)
    requires sep !in b
    ensures Split(a + ([sep] + b), sep) == Split(a, sep) + [b]
  {
    var s := a + ([sep] + b);
    assert s[|a|] == sep;
    forall k | |a| < k < |s|
      ensures s[k] != sep
    {
      assert s[k] == b[k - |a| - 1];
    }
    assert LastIndexOf(s, sep) == |a|;
    assert s[..|a|] == a;
    assert s[|a| + 1..] == b;
  }

  /**
   * The parameters of a list of '&'-separated segments. The map is built from the back,
   * so the first segment that names a key decides its value.
   */
  function ParseSegments(segments: seq<string>): map<string, string>
    decreases |segments|
  {
    if segments == [] then map[]
    else
      var rest := ParseSegments(segments[1..]);
      var segment := segments[0];
      if segment == "" || ';' in segment then rest
      else
        var i := IndexOf(segment, '=');
        if i < 0 then rest[segment := ""] else rest[segment[..i] := segment[i + 1..]]
  }

  /** Earlier segments override later ones. */
  lemma {:induction false} ParseSegmentsAppend(s1: seq<string>, s2: seq<string>)
    ensures ParseSegments(s1 + s2) == ParseSegments(s2) + ParseSegments(s1)
    decreases |s1|
  {
    if s1 == [] {
      assert s1 + s2 == s2;
    } else {
      assert (s1 + s2)[1..] == s1[1..] + s2;
      ParseSegmentsAppend(s1[1..], s2);
    }
  }

  /** The query parameters a handler sees for a request to `url`. */
  function QueryParams(url: string): map<string, string>
  {
    ParseSegments(Split(RawQuery(url), '&'))
  }

  /** No character that would end the value early or split it differently. */
  predicate PlainParam(s: string)
  {
    '&' !in s && '#' !in s && ';' !in s
  }

  /** Lower-case letters and '-' only, as in every parameter name and route key the scaffold uses. */
  predicate QuerySafe(s: string)
  {
    forall c :: c in s ==> 'a' <= c <= 'z' || c == '-'
  }

  /** A query-safe text is a plain parameter without '=' or '?'. */
  lemma QuerySafePlain(s: string)
    requires QuerySafe(s)
    ensures PlainParam(s) && '=' !in s && '?' !in s
  {
  }

  /** A single `key=value` segment. */
  lemma ParseOneSegment(key: string, value: string)
    requires key != "" && '=' !in key && PlainParam(key) && PlainParam(value)
    ensures Split(key + "=" + value, '&') == [key + "=" + value]
    ensures ParseSegments([key + "=" + value]) == map[key := value]
  {
    assert '&' !in key + "=" + value;
    SplitNone(key + "=" + value, '&');
    ParseKeyValue(key, value);
  }

  /** The segment `key=value` alone sets `key` to `value`. */
  lemma ParseKeyValue(key: string, value: string)
    requires key != "" && '=' !in key && ';' !in key && ';' !in value
    ensures ParseSegments([key + "=" + value]) == map[key := value]
  {
    var seg := key + "=" + value;
    assert seg == key + ("=" + value);
    IndexOfAfter(key, "=" + value, '=');
    assert IndexOf(seg, '=') == |key|;
    assert seg[..|key|] == key;
    assert seg[|key| + 1..] == value;
    assert ';' !in seg;
    var none: seq<string> := [];
    assert [seg][1..] == none;
  }

  /** Text after the first '?' is part of the raw query. */
  lemma RawQueryExtend(url: string, tail: string)
    requires '?' in url && '#' !in url && '#' !in tail
    ensures RawQuery(url + tail) == RawQuery(url) + tail
  {
    var full := url + tail;
    assert '#' !in full;
    assert Before(full, '#') == full;
    assert Before(url, '#') == url;
    IndexOfBefore(url, tail, '?');
    var i := IndexOf(url, '?');
    assert full[i + 1..] == url[i + 1..] + tail;
  }

  /** A URL without '?' has no query parameters. */
  lemma NoQuery(url: string)
    requires '?' !in url && '#' !in url
    ensures QueryParams(url) == map[]
  {
    assert Before(url, '#') == url;
    assert RawQuery(url) == "";
    assert Split("", '&') == [""];
    var none: seq<string> := [];
    assert [""][1..] == none;
  }

  /** Everything after the first '?' of a URL without fragment is its raw query. */
  lemma RawQueryFirst(url: string, query: string)
    requires '?' !in url && '#' !in url && '#' !in query
    ensures RawQuery(url + (['?'] + query)) == query
  {
    var full := url + (['?'] + query);
    assert '#' !in full;
    assert Before(full, '#') == full;
    IndexOfAfter(url, ['?'] + query, '?');
    assert full[|url| + 1..] == query;
  }

  /**
   * Appending `key=value` with the separator a builder chooses — '&' when the URL already has
   * a query, '?' otherwise — adds that parameter and keeps every earlier one, and an earlier
   * value for the same key still wins.
   */
  lemma AppendParam(url: string, key: string, value: string)
    requires '#' !in url
    requires key != "" && '=' !in key && PlainParam(key) && PlainParam(value)
    ensures QueryParams(url + [if '?' in url then '&' else '?'] + key + "=" + value)
      == map[key := value] + QueryParams(url)
  {
    if '?' in url {
      AppendToQuery(url, key, value);
      assert url + [if '?' in url then '&' else '?'] + key + "=" + value == url + "&" + key + "=" + value;
    } else {
      AppendToBare(url, key, value);
      assert url + [if '?' in url then '&' else '?'] + key + "=" + value == url + "?" + key + "=" + value;
    }
  }

  /** `AppendParam` for a URL that already has a query, where the separator is '&'. */
  lemma AppendToQuery(url: string, key: string, value: string)
    requires '?' in url && '#' !in url
    requires key != "" && '=' !in key && PlainParam(key) && PlainParam(value)
    ensures QueryParams(url + "&" + key + "=" + value) == map[key := value] + QueryParams(url)
  {
    var seg := key + "=" + value;
    var full := url + "&" + key + "=" + value;
    var pieces := Split(RawQuery(url), '&');
    Regroup(url, '&', key, value);
    assert full == url + (['&'] + seg);
    SegmentsOfExtended(url, seg);
    ParseOneSegment(key, value);
    ParseSegmentsAppend(pieces, [seg]);
  }

  /** A segment appended after '&' to a URL with a query becomes its last segment. */
  lemma SegmentsOfExtended(url: string, seg: string)
    requires '?' in url && '#' !in url && '#' !in seg && '&' !in seg
    ensures Split(RawQuery(url + (['&'] + seg)), '&') == Split(RawQuery(url), '&') + [seg]
  {
    var tail := ['&'] + seg;
    RawQueryExtend(url, tail);
    SplitAppendLast(RawQuery(url), seg, '&');
  }

  /** `AppendParam` for a URL without a query, where the separator is '?'. */
  lemma AppendToBare(url: string, key: string, value: string)
    requires '?' !in url && '#' !in url
    requires key != "" && '=' !in key && PlainParam(key) && PlainParam(value)
    ensures QueryParams(url + "?" + key + "=" + value) == map[key := value] + QueryParams(url)
  {
    var seg := key + "=" + value;
    var full := url + "?" + key + "=" + value;
    Regroup(url, '?', key, value);
    assert full == url + (['?'] + seg);
    assert '#' !in seg;
    RawQueryFirst(url, seg);
    assert RawQuery(full) == seg;
    ParseOneSegment(key, value);
    assert QueryParams(full) == map[key := value];
    NoQuery(url);
    var empty: map<string, string> := map[];
    assert map[key := value] + empty == map[key := value];
  }

  /** Re-associates a URL built by appending a separator, a key, '=' and a value. */
  lemma Regroup(url: string, sep: char, key: string, value: string)
    ensures url + [sep] + key + "=" + value == url + ([sep] + (key + "=" + value))
  {
  }
}
