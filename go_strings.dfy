/**
 * The functions of Go's `strings` and `unicode` packages that the scaffold relies on,
 * written out over `seq<char>`.
 */
module GoStrings {

  /** `strings.HasPrefix` */
  predicate HasPrefix(s: string, prefix: string)
  {
    |prefix| <= |s| && s[..|prefix|] == prefix
  }

  /** `strings.HasSuffix` */
  predicate HasSuffix(s: string, suffix: string)
  {
    |suffix| <= |s| && s[|s| - |suffix|..] == suffix
  }

  /** `pattern` occurs in `s` starting at index `i`. */
  predicate OccursAt(s: string, pattern: string, i: int)
  {
    0 <= i && i + |pattern| <= |s| && s[i..i + |pattern|] == pattern
  }

  /** `strings.Contains` */
  predicate Contains(s: string, pattern: string)
  {
    exists i :: 0 <= i <= |s| && OccursAt(s, pattern, i)
  }

  /**
   * `strings.ReplaceAll(s, pattern, "")`: one left-to-right pass that deletes each
   * non-overlapping occurrence of `pattern`. Text the deletion brings together is not
   * scanned again.
   */
  function RemoveAll(s: string, pattern: string): (r: string)
    requires pattern != ""
    ensures |r| <= |s|
    decreases |s|
  {
    if |s| < |pattern| then s
    else if s[..|pattern|] == pattern then RemoveAll(s[|pattern|..], pattern)
    else [s[0]] + RemoveAll(s[1..], pattern)
  }

  /** Dropping the first character shifts every occurrence one place to the left. */
  lemma OccursAtTail(s: string, pattern: string, i: int)
    requires |s| > 0 && 0 <= i
    ensures OccursAt(s[1..], pattern, i) <==> OccursAt(s, pattern, i + 1)
  {
    if i + |pattern| <= |s| - 1 {
      assert s[1..][i..i + |pattern|] == s[i + 1..i + 1 + |pattern|];
    }
  }

  /** A string in which the pattern does not occur is left as it is. */
  lemma {:induction false} RemoveAllAbsent(s: string, pattern: string)
    requires pattern != ""
    requires !Contains(s, pattern)
    ensures RemoveAll(s, pattern) == s
    decreases |s|
  {
    if |s| >= |pattern| {
      assert !OccursAt(s, pattern, 0);
      forall i | 0 <= i <= |s[1..]|
        ensures !OccursAt(s[1..], pattern, i)
      {
        OccursAtTail(s, pattern, i);
      }
      RemoveAllAbsent(s[1..], pattern);
      assert s == [s[0]] + s[1..];
    }
  }

  /** A prefix in which no occurrence of the pattern starts is copied through unchanged. */
  lemma {:induction false} RemoveAllAppend(x: string, y: string, pattern: string)
    requires pattern != ""
    requires forall i :: 0 <= i < |x| ==> !OccursAt(x + y, pattern, i)
    ensures RemoveAll(x + y, pattern) == x + RemoveAll(y, pattern)
    decreases |x|
  {
    var s := x + y;
    if x == [] {
      assert s == y;
    } else if |s| < |pattern| {
      assert RemoveAll(y, pattern) == y;
    } else {
      var t := x[1..] + y;
      assert s[1..] == t;
      RemoveAllKeepsFirst(s, pattern);
      NoOccurrenceInTail(x, y, pattern);
      RemoveAllAppend(x[1..], y, pattern);
      assert s[0] == x[0];
      assert x == [x[0]] + x[1..];
    }
  }

  /** Dropping the first character keeps every position of `x` free of occurrences. */
  lemma NoOccurrenceInTail(x: string, y: string, pattern: string)
    requires x != []
    requires forall i :: 0 <= i < |x| ==> !OccursAt(x + y, pattern, i)
    ensures forall i :: 0 <= i < |x| - 1 ==> !OccursAt(x[1..] + y, pattern, i)
  {
    var s := x + y;
    assert s[1..] == x[1..] + y;
    forall i | 0 <= i < |x| - 1
      ensures !OccursAt(x[1..] + y, pattern, i)
    {
      OccursAtTail(s, pattern, i);
    }
  }

  /** Where no occurrence starts, the first character is kept and the scan moves on by one. */
  lemma RemoveAllKeepsFirst(s: string, pattern: string)
    requires pattern != "" && |s| >= |pattern| && !OccursAt(s, pattern, 0)
    ensures RemoveAll(s, pattern) == [s[0]] + RemoveAll(s[1..], pattern)
  {
    assert s[0..|pattern|] == s[..|pattern|];
  }

  /**
   * `strings.TrimLeftFunc`: drop the longest prefix whose characters all satisfy `cut`.
   */
  function TrimLeftFunc(s: string, cut: char -> bool): (r: string)
    ensures |r| <= |s| && r == s[|s| - |r|..]
    ensures forall i :: 0 <= i < |s| - |r| ==> cut(s[i])
    ensures |r| > 0 ==> !cut(r[0]) && !cut(s[|s| - |r|])
    decreases |s|
  {
    if |s| > 0 && cut(s[0]) then
      var rest := TrimLeftFunc(s[1..], cut);
      assert s[1..][|s| - 1 - |rest|..] == s[|s| - |rest|..];
      assert forall i :: 1 <= i < |s| - |rest| ==> s[i] == s[1..][i - 1];
      rest
    else s
  }

  /**
   * `strings.TrimRightFunc`: drop the longest suffix whose characters all satisfy `cut`.
   */
  function TrimRightFunc(s: string, cut: char -> bool): (r: string)
    ensures |r| <= |s| && r == s[..|r|]
    ensures forall i :: |r| <= i < |s| ==> cut(s[i])
    ensures |r| > 0 ==> !cut(r[|r| - 1])
    decreases |s|
  {
    if |s| > 0 && cut(s[|s| - 1]) then
      var rest := TrimRightFunc(s[..|s| - 1], cut);
      assert s[..|s| - 1][..|rest|] == s[..|rest|];
      assert forall i :: |rest| <= i < |s| - 1 ==> s[i] == s[..|s| - 1][i];
      rest
    else s
  }

  /** `strings.TrimFunc`: trim on both sides. */
  function TrimFunc(s: string, cut: char -> bool): string
  {
    TrimRightFunc(TrimLeftFunc(s, cut), cut)
  }

  /** Where the piece that trimming keeps starts in the input. */
  function TrimStart(s: string, cut: char -> bool): nat
  {
    |s| - |TrimLeftFunc(s, cut)|
  }

  /**
   * What trimming means: the result is the piece of the input that starts at `TrimStart`,
   * everything outside it satisfies `cut`, and it neither starts nor ends with such a character.
   */
  lemma TrimFuncSlice(s: string, cut: char -> bool)
    ensures TrimStart(s, cut) + |TrimFunc(s, cut)| <= |s|
    ensures TrimFunc(s, cut) == s[TrimStart(s, cut)..TrimStart(s, cut) + |TrimFunc(s, cut)|]
    ensures forall i :: 0 <= i < TrimStart(s, cut) ==> cut(s[i])
    ensures forall i :: TrimStart(s, cut) + |TrimFunc(s, cut)| <= i < |s| ==> cut(s[i])
    ensures |TrimFunc(s, cut)| > 0 ==> !cut(TrimFunc(s, cut)[0]) && !cut(TrimFunc(s, cut)[|TrimFunc(s, cut)| - 1])
  {
    var l := TrimLeftFunc(s, cut);
    var r := TrimRightFunc(l, cut);
    var lo := |s| - |l|;
    assert TrimStart(s, cut) == lo && TrimFunc(s, cut) == r;
    assert l == s[lo..] && r == l[..|r|];
    assert s[lo..][..|r|] == s[lo..lo + |r|];
    forall i | lo + |r| <= i < |s|
      ensures cut(s[i])
    {
      assert s[i] == l[i - lo];
    }
    if |r| > 0 {
      assert r[0] == l[0];
    }
  }

  /** Trimming yields "" exactly when every character of the input satisfies `cut`. */
  lemma TrimFuncEmpty(s: string, cut: char -> bool)
    ensures TrimFunc(s, cut) == "" <==> forall i :: 0 <= i < |s| ==> cut(s[i])
  {
  }

  /** A string that neither starts nor ends with a character to cut is returned as it is. */
  lemma TrimFuncKeeps(s: string, cut: char -> bool)
    requires |s| > 0 ==> !cut(s[0]) && !cut(s[|s| - 1])
    ensures TrimFunc(s, cut) == s
  {
  }

  /** Go's `unicode.IsSpace`: the Latin-1 spaces plus the other Unicode White_Space code points. */
  predicate IsSpace(c: char)
  {
    c == '\t' || c == '\n' || c == '\U{000B}' || c == '\U{000C}' || c == '\r' || c == ' '
    || c == '\U{0085}' || c == '\U{00A0}' || c == '\U{1680}'
    || ('\U{2000}' <= c <= '\U{200A}')
    || c == '\U{2028}' || c == '\U{2029}' || c == '\U{202F}' || c == '\U{205F}' || c == '\U{3000}'
  }

  /** `strings.TrimSpace` */
  function TrimSpace(s: string): string
  {
    TrimFunc(s, IsSpace)
  }

  /** The cut set `" "` of `strings.Trim(s, " ")`: the ASCII space and nothing else. */
  predicate IsBlank(c: char)
  {
    c == ' '
  }

  /** `strings.Trim(s, " ")` */
  function TrimBlanks(s: string): string
  {
    TrimFunc(s, IsBlank)
  }

  /** `strings.Trim(s, " ")` is empty for a string of spaces, and otherwise keeps no space at either end. */
  lemma TrimBlanksEdges(s: string)
    ensures (forall k :: 0 <= k < |s| ==> s[k] == ' ') ==> TrimBlanks(s) == ""
    ensures var t := TrimBlanks(s); t != "" ==> t[0] != ' ' && t[|t| - 1] != ' '
  {
    TrimFuncEmpty(s, IsBlank);
    TrimFuncSlice(s, IsBlank);
  }

  /** `strings.Count(s, string(c))` */
  function Count(s: string, c: char): nat
    decreases |s|
  {
    if s == [] then 0 else (if s[0] == c then 1 else 0) + Count(s[1..], c)
  }

  lemma {:induction false} CountAppend(a: string, b: string, c: char)
    ensures Count(a + b, c) == Count(a, c) + Count(b, c)
    decreases |a|
  {
    if a == [] {
      assert a + b == b;
    } else {
      assert (a + b)[1..] == a[1..] + b;
      CountAppend(a[1..], b, c);
    }
  }

  lemma {:induction false} CountZero(s: string, c: char)
    ensures Count(s, c) == 0 <==> c !in s
    decreases |s|
  {
    if s != [] {
      CountZero(s[1..], c);
      assert s == [s[0]] + s[1..];
    }
  }
}
