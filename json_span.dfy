/** The bracket-scanning heuristic that every reply handler applies to a
    model's free-form answer: the JSON payload is taken to run from the first
    '{' to the last '}', inclusive. */
module JsonSpan {
  import opened Wrappers
  import opened PyStr

  /** `text[text.find('{') : text.rfind('}') + 1]` when `0 <= start < end`,
      and no span otherwise. */
  function ExtractSpan(text: string): Option<string>
  {
    var start := Find(text, '{');
    var end := RFind(text, '}') + 1;
    if 0 <= start < end then Some(text[start..end]) else None
  }

  /** `text[i..j]` opens with the first '{' of `text` and closes with its
      last '}'. */
  ghost predicate IsOutermostSpan(text: string, i: int, j: int)
  {
    0 <= i < j <= |text| && text[i] == '{' && text[j - 1] == '}' &&
    '{' !in text[..i] && '}' !in text[j..]
  }

  /** The scan finds a span exactly when some '{' precedes some '}'. */
  lemma ExtractSpanSomeIff(text: string)
    ensures ExtractSpan(text).Some? <==>
      exists i, j :: 0 <= i < j < |text| && text[i] == '{' && text[j] == '}'
  {
    var start := Find(text, '{');
    var last := RFind(text, '}');
    if ExtractSpan(text).Some? {
      assert start != last;
    }
  }

  /** A span is the outermost brace-delimited stretch of the reply: it starts
      at the first '{', ends at the last '}', and is a contiguous slice. */
  lemma ExtractSpanIsOutermost(text: string)
    requires ExtractSpan(text).Some?
    ensures exists i, j :: IsOutermostSpan(text, i, j) && ExtractSpan(text).value == text[i..j]
  {
    var start := Find(text, '{');
    var end := RFind(text, '}') + 1;
    assert IsOutermostSpan(text, start, end);
  }

  /** What the span looks like on its own: at least two characters, opening
      with '{' and closing with '}'. */
  lemma ExtractSpanDelimited(text: string)
    requires ExtractSpan(text).Some?
    ensures var s := ExtractSpan(text).value;
      |s| >= 2 && s[0] == '{' && s[|s| - 1] == '}'
  {
    assert Find(text, '{') != RFind(text, '}');
  }

  /** Scanning a span a second time gives the same span back. */
  lemma ExtractSpanIdempotent(text: string)
    requires ExtractSpan(text).Some?
    ensures ExtractSpan(ExtractSpan(text).value) == ExtractSpan(text)
  {
    var s := ExtractSpan(text).value;
    ExtractSpanDelimited(text);
    ExtractSpanOfSurrounded("", s, "");
    assert "" + s + "" == s;
  }

  /** Prose around a brace-delimited body is tolerated: any prefix without a
      '{' and any suffix without a '}' is stripped, and only that. */
  lemma ExtractSpanOfSurrounded(before: string, body: string, after: string)
    requires '{' !in before && '}' !in after
    requires |body| >= 2 && body[0] == '{' && body[|body| - 1] == '}'
    ensures ExtractSpan(before + body + after) == Some(body)
  {
    var text := before + body + after;
    assert text == before + (body + after);
    FindPastPrefix(before, body + after, '{');
    assert text == (before + body) + after;
    RFindBeforeSuffix(before + body, after, '}');
    assert text[|before|..|before| + |body|] == body;
  }

  /** The reply used as the worked example of the extraction contract. */
  lemma ExtractSpanOfExample()
    ensures ExtractSpan("Here is the data: {\"a\": 1} Thanks!") == Some("{\"a\": 1}")
  {
    assert "Here is the data: {\"a\": 1} Thanks!" == "Here is the data: " + "{\"a\": 1}" + " Thanks!";
    ExtractSpanOfSurrounded("Here is the data: ", "{\"a\": 1}", " Thanks!");
  }

  /** Text without a '{' never yields a span. */
  lemma ExtractSpanNeedsOpen(text: string)
    requires '{' !in text
    ensures ExtractSpan(text) == None
  {
  }

  /** Text without a '}' never yields a span. */
  lemma ExtractSpanNeedsClose(text: string)
    requires '}' !in text
    ensures ExtractSpan(text) == None
  {
  }

  /** When every '}' comes before the first '{', there is no span either. */
  lemma ExtractSpanClosedBeforeOpen(before: string, after: string)
    requires '{' !in before && '}' !in after
    ensures ExtractSpan(before + after) == None
  {
    var text := before + after;
    assert forall k :: 0 <= k < |before| ==> text[k] == before[k];
    assert forall k :: |before| <= k < |text| ==> text[k] == after[k - |before|];
    ExtractSpanSomeIff(text);
  }
}
