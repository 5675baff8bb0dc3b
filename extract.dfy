/**
 * Recovering a JSON text from a free-form completion: the slice between the
 * first opening and the last closing delimiter (used for critiques, plans
 * and tool choices), and the body of a fenced ```json block (used by the
 * judges).
 */
module Extract {
  import opened Basics
  import opened Text

  /**
   * `text[text.find(open) : text.rfind(close) + 1]`, guarded as the agents
   * guard it: `None` when `find` returns -1 or `rfind(close) + 1` is 0.
   */
  function DelimitedSlice(text: string, open: char, close: char): (r: Option<string>)
    ensures r.None? <==> (open !in text || close !in text)
  {
    match (FirstIndexOf(text, open), LastIndexOf(text, close))
    case (Some(i), Some(j)) => Some(Slice(text, i, j + 1))
    case _ => None
  }

  /**
   * The slice is exactly the text from the first `open` to the last `close`,
   * both included, whatever precedes or follows them.
   */
  lemma DelimitedSliceOfWrapped(before: string, body: string, after: string, open: char, close: char)
    requires open !in before && close !in after
    ensures DelimitedSlice(before + [open] + body + [close] + after, open, close) == Some([open] + body + [close])
  {
    var text := before + [open] + body + [close] + after;
    var i := |before|;
    var j := |before| + 1 + |body|;
    assert text[i] == open && text[j] == close;
    var fi := FirstIndexOf(text, open);
    var lj := LastIndexOf(text, close);
    assert fi == Some(i) by {
      assert open in text[..i + 1];
      assert text[..i] == before;
    }
    assert lj == Some(j) by {
      assert text[j + 1..] == after;
      assert close in text[j..];
    }
    assert text[i..j + 1] == [open] + body + [close];
  }

  /** When both delimiters occur and the first `open` precedes the last `close`, the slice starts and ends with them and contains neither beyond them. */
  lemma DelimitedSliceShape(text: string, open: char, close: char)
    requires open in text && close in text
    ensures var i := FirstIndexOf(text, open).value;
            var j := LastIndexOf(text, close).value;
            DelimitedSlice(text, open, close) == Some(Slice(text, i, j + 1))
            && (i <= j ==> Slice(text, i, j + 1) == text[i..j + 1] && text[i] == open && text[j] == close)
            && (j < i ==> Slice(text, i, j + 1) == "")
  {
  }

  const FenceOpen := "```json"
  const FenceClose := "```"

  /**
   * The text the judges hand to `json.loads`:
   * `response.split("```json")[1].split("```")[0].strip()` when the
   * response contains "```json", the whole response otherwise.
   */
  function JsonPayload(response: string): (r: string)
    ensures !Contains(response, FenceOpen) ==> r == response
  {
    if Contains(response, FenceOpen) then
      Strip(Split(Split(response, FenceOpen)[1], FenceClose)[0])
    else response
  }

  /**
   * The fenced case: the payload is, stripped, a prefix `u` of the text after
   * the first "```json", `u` holds no "```", and `u` runs up to a "```" or to
   * the end of the response.
   */
  lemma {:induction false} JsonPayloadFenced(response: string)
    requires Contains(response, FenceOpen)
    ensures var i := IndexOf(response, FenceOpen).value;
            var rest := response[i + |FenceOpen|..];
            exists u :: u <= rest && !Contains(u, FenceClose)
                        && (u == rest || OccursAt(rest, FenceClose, |u|))
                        && JsonPayload(response) == Strip(u)
  {
    var i := IndexOf(response, FenceOpen).value;
    var rest := response[i + |FenceOpen|..];
    var pieces := Split(response, FenceOpen);
    assert pieces == [response[..i]] + Split(rest, FenceOpen);
    var p1 := pieces[1];
    assert p1 == Split(rest, FenceOpen)[0];
    var u := Split(p1, FenceClose)[0];
    match IndexOf(rest, FenceOpen)
    case None =>
      assert p1 == rest;
      UnstrippedSegment(p1, rest, u);
    case Some(k) =>
      assert p1 == rest[..k];
      assert OccursAt(rest, FenceClose, k) by {
        assert rest[k..k + |FenceOpen|] == FenceOpen;
        assert rest[k..k + 3] == rest[k..k + |FenceOpen|][..3];
      }
      UnstrippedSegment(p1, rest, u);
  }

  /** The piece before the first "```" of a prefix `p1` of `rest`, when `p1` is all of `rest` or is followed there by "```". */
  lemma UnstrippedSegment(p1: string, rest: string, u: string)
    requires p1 <= rest && (p1 == rest || OccursAt(rest, FenceClose, |p1|))
    requires u == Split(p1, FenceClose)[0]
    ensures u <= rest && !Contains(u, FenceClose) && (u == rest || OccursAt(rest, FenceClose, |u|))
  {
    match IndexOf(p1, FenceClose)
    case None =>
      assert u == p1;
    case Some(m) =>
      assert u == p1[..m];
      assert OccursAt(p1, FenceClose, m);
      PrefixOccurrence(p1, rest, m);
      NoEarlierOccurrence(p1, m);
  }

  lemma PrefixOccurrence(p1: string, rest: string, m: nat)
    requires p1 <= rest && OccursAt(p1, FenceClose, m)
    ensures OccursAt(rest, FenceClose, m) && p1[..m] <= rest
  {
    assert rest[m..m + 3] == p1[m..m + 3];
  }

  lemma NoEarlierOccurrence(p1: string, m: nat)
    requires IndexOf(p1, FenceClose) == Some(m)
    ensures m <= |p1| && !Contains(p1[..m], FenceClose)
  {
    var u := p1[..m];
    if Contains(u, FenceClose) {
      var j := IndexOf(u, FenceClose).value;
      assert OccursAt(u, FenceClose, j);
      assert u[j..j + 3] == p1[j..j + 3];
      assert OccursAt(p1, FenceClose, j);
    }
  }
}
