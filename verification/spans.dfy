/** The greedy span search the core runs on every oracle reply before json.loads:
    re.search(r'({.*})', text, re.DOTALL) and re.search(r'(\[.*\])', text, re.DOTALL). */
module Spans {
  import opened Values

  /** text[i..j] (both ends included) matches `open .* close` with '.' matching newlines. */
  ghost predicate MatchAt(text: string, open: char, close: char, i: int, j: int) {
    0 <= i < j < |text| && text[i] == open && text[j] == close
  }

  /** What re.search returns: among all matches the one that starts first, and among
      those the longest, since `.*` is greedy. */
  ghost predicate LeftmostLongest(text: string, open: char, close: char, span: string) {
    exists i, j ::
      && MatchAt(text, open, close, i, j)
      && span == text[i..j + 1]
      && forall i', j' :: MatchAt(text, open, close, i', j') ==> i <= i' && j' <= j
  }

  /** The group of the search: from the first `open` to the last `close`, when some
      `close` follows the first `open`; no match otherwise. */
  function FindSpan(text: string, open: char, close: char): (r: Option<string>)
    ensures r.None? <==> forall i, j :: !MatchAt(text, open, close, i, j)
    ensures r.Some? ==> LeftmostLongest(text, open, close, r.value)
  {
    var first := FirstIndex(text, open);
    var last := LastIndex(text, close);
    if first < last then
      assert MatchAt(text, open, close, first, last);
      Some(text[first..last + 1])
    else
      None
  }

  /** A span found by the search starts with `open`, ends with `close` and is a piece of the text. */
  lemma SpanDelimited(text: string, open: char, close: char)
    requires FindSpan(text, open, close).Some?
    ensures var span := FindSpan(text, open, close).value;
      |span| >= 2 && span[0] == open && span[|span| - 1] == close && Contains(text, span)
  {
    var first := FirstIndex(text, open);
    var last := LastIndex(text, close);
    ContainsAt(text, text[first..last + 1], first);
  }
}
