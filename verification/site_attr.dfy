/** Reading the site id back out of injected html with the pattern
    `data-site="(.*?)"`: the engine tries each start position from the left;
    at a start where `data-site="` occurs, the lazy group grows one
    character at a time until a `"` follows, and fails at that start if it
    reaches a line terminator (which `.` does not match) or the end of the
    text first. The first start that succeeds gives the capture.
 */
module SiteAttr {
  import opened HostApi

  /** The literal part of the pattern before the group. */
  const Marker := "data-site=\""

  /** The characters JavaScript's `.` refuses: LF, CR, LINE SEPARATOR and
      PARAGRAPH SEPARATOR. */
  predicate IsLineTerminator(c: char) {
    c == '\n' || c == '\r' || c == '\U{2028}' || c == '\U{2029}'
  }

  /** Text the group can capture: it stops at the first quote, and `.`
      matches no line terminator. */
  predicate Capturable(v: string) {
    forall k :: 0 <= k < |v| ==> v[k] != '"' && !IsLineTerminator(v[k])
  }

  /** `data-site="` occurs in `html` at position `i`. */
  predicate MarkerAt(html: string, i: int) {
    0 <= i && i + |Marker| <= |html| && html[i..i + |Marker|] == Marker
  }

  /** From position `k`, the group captures `v` and the closing quote follows. */
  predicate ClosesAt(html: string, k: int, v: string) {
    && 0 <= k
    && Capturable(v)
    && k + |v| < |html|
    && html[k..k + |v|] == v
    && html[k + |v|] == '"'
  }

  /** The pattern matches at start position `i`, capturing `v`. */
  predicate IsMatch(html: string, i: int, v: string) {
    MarkerAt(html, i) && ClosesAt(html, i + |Marker|, v)
  }

  /** No start position in [lo, hi) gives a match. */
  ghost predicate NoMatchIn(html: string, lo: int, hi: int) {
    forall j, v :: lo <= j < hi ==> !IsMatch(html, j, v)
  }

  /** The lazy group run from position `k`: the text up to the next quote, or
      nothing when a line terminator or the end of the text comes first. */
  function QuotedValue(html: string, k: nat): (r: Option<string>)
    requires k <= |html|
    ensures r.Some? ==> ClosesAt(html, k, r.value)
    ensures r.None? ==> forall v :: !ClosesAt(html, k, v)
    decreases |html| - k
  {
    if k == |html| || IsLineTerminator(html[k]) then
      None
    else if html[k] == '"' then
      assert html[k..k] == "";
      Some("")
    else
      match QuotedValue(html, k + 1)
      case None =>
        assert forall v :: ClosesAt(html, k, v) ==> ClosesAt(html, k + 1, v[1..]) by {
          forall v | ClosesAt(html, k, v) ensures ClosesAt(html, k + 1, v[1..]) {
            assert html[k + 1..k + |v|] == html[k..k + |v|][1..];
          }
        }
        None
      case Some(w) =>
        var v := [html[k]] + w;
        assert html[k..k + |v|] == [html[k]] + html[k + 1..k + 1 + |w|];
        Some(v)
  }

  /** The group's value at one start position is determined: the text up to
      the first quote after the marker. */
  lemma {:induction false} CaptureUnique(html: string, k: int, v: string, w: string)
    requires ClosesAt(html, k, v) && ClosesAt(html, k, w)
    ensures v == w
  {
  }

  /** A start position without a match extends a stretch without one. */
  lemma NoMatchExtend(html: string, i: int, hi: int)
    requires forall v :: !IsMatch(html, i, v)
    requires NoMatchIn(html, i + 1, hi)
    ensures NoMatchIn(html, i, hi)
  {
  }

  /** The search from start position `i` onward: the capture at the first
      start at or after `i` where the pattern matches. */
  function ExtractFrom(html: string, i: nat): (r: Option<string>)
    requires i <= |html|
    ensures r.Some? ==>
      exists j :: i <= j < |html| && IsMatch(html, j, r.value) && NoMatchIn(html, i, j)
    ensures r.None? ==> NoMatchIn(html, i, |html|)
    decreases |html| - i
  {
    if i + |Marker| > |html| then
      assert NoMatchIn(html, i, |html|) by {
        forall j, v | i <= j < |html| ensures !IsMatch(html, j, v) {
          assert !MarkerAt(html, j);
        }
      }
      None
    else
      var here := if html[i..i + |Marker|] == Marker then QuotedValue(html, i + |Marker|) else None;
      if here.Some? then
        assert IsMatch(html, i, here.value);
        here
      else
        assert forall v :: !IsMatch(html, i, v);
        var r := ExtractFrom(html, i + 1);
        if r.Some? then
          assert exists j :: i <= j < |html| && IsMatch(html, j, r.value) && NoMatchIn(html, i, j) by {
            var j :| i + 1 <= j < |html| && IsMatch(html, j, r.value) && NoMatchIn(html, i + 1, j);
            NoMatchExtend(html, i, j);
          }
          r
        else
          NoMatchExtend(html, i, |html|);
          r
  }

  /** `html.match(/data-site="(.*?)"/)?.[1]`: the capture at the leftmost start
      position where the pattern matches, or nothing when it matches nowhere.
      The capture may be empty (for `data-site=""`) and never holds a quote
      or a line terminator. */
  function Extract(html: string): (r: Option<string>)
    ensures r.Some? ==>
      exists i :: 0 <= i < |html| && IsMatch(html, i, r.value) && NoMatchIn(html, 0, i)
    ensures r.Some? ==> Capturable(r.value)
    ensures r.None? <==> NoMatchIn(html, 0, |html|)
  {
    ExtractFrom(html, 0)
  }

  /** Every `data-site="` begins with `d`. */
  lemma NoMarkerWithoutD(html: string, j: int)
    requires 0 <= j < |html| && html[j] != 'd'
    ensures !MarkerAt(html, j)
  {
  }

  /** The two ways a search result can be read agree: when the pattern
      matches at `i` and nowhere before, the result is that capture. */
  lemma ExtractIsFirstMatch(html: string, i: int, v: string)
    requires IsMatch(html, i, v)
    requires NoMatchIn(html, 0, i)
    ensures Extract(html) == Some(v)
  {
  }

  /** The common reading: when no `data-site="` occurs before position `i`,
      one occurs at `i`, and the text after it up to the next quote has no
      line break, the result is exactly that text (possibly empty). */
  lemma FirstMarkerValue(html: string, i: int, v: string)
    requires forall j :: 0 <= j < i ==> !MarkerAt(html, j)
    requires MarkerAt(html, i)
    requires ClosesAt(html, i + |Marker|, v)
    ensures Extract(html) == Some(v)
  {
    ExtractIsFirstMatch(html, i, v);
  }

  /** Html that is empty, or has no `data-site="` at all, gives no capture. */
  lemma NoMarkerNoMatch(html: string)
    requires forall j :: 0 <= j < |html| ==> !MarkerAt(html, j)
    ensures Extract(html) == None
  {
  }

  /** `data-site=""` gives the empty capture, not a failed match. */
  lemma EmptyValue()
    ensures Extract(Marker + "\"") == Some("")
  {
  }

  /** A value broken by a line break does not stop the search: the engine
      moves on and takes the next attribute whose value closes on its line. */
  lemma BrokenValueSkipped()
    ensures Extract(Marker + "a\n\" " + Marker + "b\"") == Some("b")
  {
    var first := Marker + "a\n\" ";
    var html := first + (Marker + "b\"");
    assert html == Marker + "a\n\" " + Marker + "b\"";
    assert forall v :: !ClosesAt(html, |Marker|, v) by {
      forall v ensures !ClosesAt(html, |Marker|, v) {
        assert html[|Marker|] == 'a' && html[|Marker| + 1] == '\n';
      }
    }
    assert 'd' !in "ata-site=\"a\n\" ";
    forall j | 1 <= j < |first| ensures !MarkerAt(html, j) {
      assert html[j] == first[j] == first[1..][j - 1];
      assert first[1..] == "ata-site=\"a\n\" ";
      assert first[1..][j - 1] in first[1..];
      NoMarkerWithoutD(html, j);
    }
    assert MarkerAt(html, |first|);
    assert ClosesAt(html, |first| + |Marker|, "b");
    ExtractIsFirstMatch(html, |first|, "b");
  }
}
