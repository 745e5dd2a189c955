/**
 * The raw-marker convention of the second-generation pages: a column name or a text that
 * starts with "{!!" and ends with "!!}" asks for its cell to be rendered as HTML instead of
 * escaped text. Every occurrence of both markers is removed from the displayed text.
 */
module RawMarkers {
  import opened GoStrings

  const Open := "{!!"
  const Close := "!!}"

  /** The text is wrapped in the markers. */
  predicate IsRaw(s: string)
  {
    HasPrefix(s, Open) && HasSuffix(s, Close)
  }

  /** Both markers removed, each in one left-to-right pass, opening marker first. */
  function StripMarkers(s: string): (r: string)
    ensures |r| <= |s|
  {
    RemoveAll(RemoveAll(s, Open), Close)
  }

  /** A display cell: escaped text or verbatim HTML. */
  datatype Cell = Text(content: string) | Html(content: string)

  /**
   * A table cell for `text`, rendered as HTML exactly when `marker` is raw: the listing passes
   * the column name, the read page passes the text itself. Whatever the markers, the content
   * is the text with the markers removed and the Unicode white space trimmed.
   */
  function RenderCell(marker: string, text: string): (c: Cell)
    ensures c.Html? <==> IsRaw(marker)
    ensures c.content == TrimSpace(StripMarkers(text))
  {
    var content := TrimSpace(StripMarkers(text));
    if IsRaw(marker) then Html(content) else Text(content)
  }

  /** A text holding neither marker is only trimmed. */
  lemma UnmarkedOnlyTrimmed(marker: string, text: string)
    requires !Contains(text, Open) && !Contains(text, Close)
    ensures StripMarkers(text) == text
    ensures RenderCell(marker, text).content == TrimSpace(text)
  {
    RemoveAllAbsent(text, Open);
    RemoveAllAbsent(text, Close);
  }

  /**
   * Wrapping a text in the markers makes it raw, and stripping gives the text back, provided the
   * text cannot take part in a marker itself: it has no '{' and no closing marker.
   */
  lemma WrapStripRoundTrip(x: string)
    requires '{' !in x && !Contains(x, Close)
    ensures IsRaw(Open + x + Close)
    ensures StripMarkers(Open + x + Close) == x
  {
    var w := Open + x + Close;
    assert w[..|Open|] == Open;
    assert w[|w| - |Close|..] == Close;
    StripOpenPass(x);
    StripClosePass(x);
  }

  /** First pass: the leading marker goes, and nothing in `x` starts another one. */
  lemma StripOpenPass(x: string)
    requires '{' !in x
    ensures RemoveAll(Open + x + Close, Open) == x + Close
  {
    var w := Open + x + Close;
    assert w[..|Open|] == Open;
    assert w[|Open|..] == x + Close;
    assert RemoveAll(w, Open) == RemoveAll(x + Close, Open);
    forall i | 0 <= i < |x|
      ensures !OccursAt(x + Close, Open, i)
    {
      assert (x + Close)[i..i + |Open|][0] == x[i];
      assert x[i] in x;
    }
    RemoveAllAppend(x, Close, Open);
    assert RemoveAll(Close, Open) == Close;
  }

  /** Second pass: only the trailing marker matches. */
  lemma StripClosePass(x: string)
    requires !Contains(x, Close)
    ensures RemoveAll(x + Close, Close) == x
  {
    forall i | 0 <= i < |x|
      ensures !OccursAt(x + Close, Close, i)
    {
      if i + |Close| <= |x| {
        assert (x + Close)[i..i + |Close|] == x[i..i + |Close|];
        assert !OccursAt(x, Close, i);
      } else {
        var tail := x + Close;
        var k := i + 2 - |x|;
        assert 0 <= k <= 1;
        assert tail[i + 2] == Close[k];
        assert Close[k] == '!';
        assert tail[i..i + |Close|][2] == tail[i + 2];
      }
    }
    RemoveAllAppend(x, Close, Close);
    var none := "";
    assert RemoveAll(Close, Close) == RemoveAll(none, Close);
  }

  /** A listing cell wrapped in markers under a raw column shows the trimmed inner text as HTML. */
  lemma RawColumnRendersInnerHtml(column: string, x: string)
    requires IsRaw(column)
    requires '{' !in x && !Contains(x, Close)
    ensures RenderCell(column, Open + x + Close) == Html(TrimSpace(x))
  {
    WrapStripRoundTrip(x);
  }

  /**
   * Stripping is a single pass: a marker assembled by earlier removals survives, so a stripped
   * text can still hold a marker.
   */
  lemma StripIsSinglePass()
    ensures StripMarkers("{{!!!!") == "{!!"
    ensures Contains(StripMarkers("{{!!!!"), Open)
  {
    var s := "{{!!!!";
    assert s[..3][1] != Open[1];
    assert s[1..][..3] == Open;
    assert s[1..][3..] == "!!";
    assert RemoveAll(s[1..], Open) == RemoveAll("!!", Open) == "!!";
    assert RemoveAll(s, Open) == [s[0]] + RemoveAll(s[1..], Open) == "{!!";
    assert RemoveAll("{!!", Close) == "{" + RemoveAll("!!", Close);
    assert OccursAt("{!!", Open, 0);
  }
}
