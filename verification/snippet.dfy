/** The html the panel injects at the end of the document head: a comment
    banner, the analytics script tag carrying the site id in its `data-site`
    attribute, and a closing comment, each on its own line with the
    template's eight-space indentation. The id is interpolated as is, with no
    escaping.
 */
module Snippet {
  import opened HostApi
  import opened SiteAttr

  /** The indentation of every line of the template after the first. */
  const Indent := "        "

  /** The opening comment. It is split in two because the verifier reasons
      about the characters of short literals more readily than long ones. */
  const BannerComment := "<!-- Fathom - beautiful, " + "simple website analytics -->"

  /** The host the analytics script is loaded from. */
  const CdnHost := "cdn.usefathom.com"

  /** The script tag up to its `data-site` attribute. */
  const TagOpen := "<script src=\"https://" + CdnHost + "/script.js\" "

  /** Everything before the `data-site` attribute. */
  const Opening := "\n" + Indent + BannerComment + "\n" + Indent + TagOpen

  /** Everything before the site id, ending with the attribute's opening. */
  const Lead := Opening + Marker

  /** Everything after the site id: the attribute's closing quote, the rest
      of the tag and the closing comment. */
  const Trail := "\" defer></script>" + "\n" + Indent + "<!-- / Fathom -->" + "\n" + Indent

  /** The injected html for a site id. It carries `data-site="<siteId>"`
      verbatim, and the text around the id is the same for every id. */
  function ScriptHtml(siteId: string): (html: string)
    ensures |html| == |Lead| + |siteId| + |Trail|
    ensures html[|Opening|..|Lead| + |siteId| + 1] == Marker + siteId + "\""
    ensures html[..|Lead|] == Lead && html[|Lead| + |siteId|..] == Trail
  {
    var attribute := Marker + siteId + "\"";
    var html := Lead + siteId + Trail;
    assert Trail == "\"" + Trail[1..];
    assert html == Opening + attribute + Trail[1..];
    assert html[|Opening|..|Opening| + |attribute|] == attribute;
    html
  }

  /** Every `d` of `s` is followed by a character of `s` other than `a`, so
      no `data-site="` starts in `s`, even one running on past its end. */
  ghost predicate NoMarkerStart(s: string) {
    forall k :: 0 <= k < |s| && s[k] == 'd' ==> k + 1 < |s| && s[k + 1] != 'a'
  }

  /** A literal without `d` has no marker start. */
  lemma NoDNoMarkerStart(s: string)
    requires 'd' !in s
    ensures NoMarkerStart(s)
  {
  }

  /** Joining texts without a marker start gives one without a marker start. */
  lemma NoMarkerStartJoin(s: string, t: string)
    requires NoMarkerStart(s) && NoMarkerStart(t)
    ensures NoMarkerStart(s + t)
  {
  }

  /** The one `d` of the host name, in `cdn`, is followed by `n`. */
  lemma CdnHostNoMarkerStart()
    ensures NoMarkerStart(CdnHost)
  {
  }

  /** The banner and the tag opening hold no marker start. */
  lemma OpeningNoMarkerStart()
    ensures NoMarkerStart(Opening)
  {
    var b1, b2 := "<!-- Fathom - beautiful, ", "simple website analytics -->";
    var t1, t2 := "<script src=\"https://", "/script.js\" ";
    NoDNoMarkerStart("\n");
    NoDNoMarkerStart(Indent);
    NoDNoMarkerStart(b1);
    NoDNoMarkerStart(b2);
    NoDNoMarkerStart(t1);
    NoDNoMarkerStart(t2);
    CdnHostNoMarkerStart();
    NoMarkerStartJoin(b1, b2);
    NoMarkerStartJoin(t1, CdnHost);
    NoMarkerStartJoin(t1 + CdnHost, t2);
    NoMarkerStartJoin("\n", Indent);
    NoMarkerStartJoin("\n" + Indent, BannerComment);
    NoMarkerStartJoin("\n" + Indent + BannerComment, "\n");
    NoMarkerStartJoin("\n" + Indent + BannerComment + "\n", Indent);
    NoMarkerStartJoin("\n" + Indent + BannerComment + "\n" + Indent, TagOpen);
  }

  /** A text without a marker start has no `data-site="` starting in it,
      whatever follows it. */
  lemma NoMarkerInPrefix(html: string, pre: string)
    requires |pre| <= |html| && html[..|pre|] == pre
    requires NoMarkerStart(pre)
    ensures forall j :: 0 <= j < |pre| ==> !MarkerAt(html, j)
  {
    forall j | 0 <= j < |pre| ensures !MarkerAt(html, j) {
      assert html[j] == html[..|pre|][j] == pre[j];
      if pre[j] == 'd' {
        assert html[j + 1] == html[..|pre|][j + 1] == pre[j + 1];
      }
    }
  }

  /** No `data-site="` starts in the template before the real attribute. */
  lemma NoEarlierMarker(siteId: string)
    ensures forall j :: 0 <= j < |Opening| ==> !MarkerAt(ScriptHtml(siteId), j)
  {
    var html := ScriptHtml(siteId);
    assert html[..|Opening|] == html[..|Lead|][..|Opening|] == Opening;
    OpeningNoMarkerStart();
    NoMarkerInPrefix(html, Opening);
  }

  /** Round trip: for a site id with no quote and no line terminator, reading
      the id back out of the injected html gives exactly that id. */
  lemma {:induction false} RoundTrip(siteId: string)
    requires Capturable(siteId)
    ensures Extract(ScriptHtml(siteId)) == Some(siteId)
  {
    var html := ScriptHtml(siteId);
    var i := |Opening|;
    NoEarlierMarker(siteId);
    assert MarkerAt(html, i);
    assert html[i + |Marker|..i + |Marker| + |siteId|] == siteId;
    assert html[i + |Marker| + |siteId|] == Trail[0] == '"';
    FirstMarkerValue(html, i, siteId);
  }

  /** Conversely, an id that holds a quote does not survive: when its part
      before the first quote holds no quote and no line terminator, what is
      read back is that part. */
  lemma {:induction false} QuoteTruncates(siteId: string, q: nat)
    requires q < |siteId| && siteId[q] == '"'
    requires Capturable(siteId[..q])
    ensures Extract(ScriptHtml(siteId)) == Some(siteId[..q])
    ensures Extract(ScriptHtml(siteId)) != Some(siteId)
  {
    var html := ScriptHtml(siteId);
    var i := |Opening|;
    NoEarlierMarker(siteId);
    assert MarkerAt(html, i);
    assert html[i + |Marker|..i + |Marker| + q] == siteId[..q];
    assert html[i + |Marker| + q] == siteId[q];
    FirstMarkerValue(html, i, siteId[..q]);
  }
}
