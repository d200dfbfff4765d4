/**
 * `get_detailed_info` (main.py, lines 4-23): up to two news links and the
 * text of the first row of the insider table; one `try` covers both reads,
 * so if either raises both columns take fixed placeholders.
 */
module Enrichment {
  import opened Wrappers

  /** One news item; a missing key is None (`n.get('title', 'News')`, `n.get('link', '#')`). */
  datatype NewsItem = NewsItem(title: Option<string>, link: Option<string>)

  /** One row of the insider-transaction table; a missing `Text` column is None. */
  datatype InsiderRow = InsiderRow(text: Option<string>)

  /**
   * What the per-ticker lookup yields: either it raised somewhere (reading
   * the news or the insider table), or both were read; the insider table
   * may be None.
   */
  datatype Lookup =
    | LookupFailed
    | Fetched(news: seq<NewsItem>, insider: Option<seq<InsiderRow>>)

  /** Only the first two news items are used (`stock.news[:2]`). */
  const MaxNews: nat := 2
  const NoNews := "No News"
  const NoData := "No Data"
  const NoRecentData := "No Recent Data"
  const DefaultTitle := "News"
  const DefaultLink := "#"
  const DefaultInsiderText := "Transaction Reported"
  const LinkSeparator := "<br>"

  /** Python's `news[:2]`. */
  function Headlines(news: seq<NewsItem>): (r: seq<NewsItem>)
    ensures |r| <= MaxNews && r <= news
    ensures |r| == if |news| < MaxNews then |news| else MaxNews
    ensures |news| <= MaxNews ==> r == news
  {
    if |news| <= MaxNews then news else news[..MaxNews]
  }

  /**
   * One bullet-prefixed HTML anchor (line 13): the item's link, or "#", as
   * the `href` value, and its title, or "News", as the anchor text.
   */
  function NewsLink(n: NewsItem): (r: string)
    ensures |r| > 0 && r[0] == '\U{2022}'
    ensures var h := n.link.GetOr(DefaultLink); var t := n.title.GetOr(DefaultTitle);
      |r| == 33 + |h| + |t| && r[..11] == "\U{2022} <a href='" && r[11..11 + |h|] == h &&
      r[11 + |h|..29 + |h|] == "' target='_blank'>" &&
      r[|r| - 4 - |t|..|r| - 4] == t && r[|r| - 4..] == "</a>"
  {
    "\U{2022} <a href='" + n.link.GetOr(DefaultLink) + "' target='_blank'>" + n.title.GetOr(DefaultTitle) + "</a>"
  }

  /** Python's `sep.join(parts)`; `JoinSnoc` gives the general step, the ensures the one- and two-part joins `Headlines` allows. */
  function Join(sep: string, parts: seq<string>): (r: string)
    ensures parts != [] && parts[0] != [] ==> |r| > 0 && r[0] == parts[0][0]
    ensures |parts| == 1 ==> r == parts[0]
    ensures |parts| == 2 ==> r == parts[0] + sep + parts[1]
  {
    if parts == [] then ""
    else if |parts| == 1 then parts[0]
    else parts[0] + sep + Join(sep, parts[1..])
  }

  /** Appending one more part joins it after a separator. */
  lemma {:induction false} JoinSnoc(sep: string, parts: seq<string>, x: string)
    requires parts != []
    ensures Join(sep, parts + [x]) == Join(sep, parts) + sep + x
  {
    if |parts| > 1 {
      assert (parts + [x])[1..] == parts[1..] + [x];
      JoinSnoc(sep, parts[1..], x);
    }
  }

  /** The insider column: the first row's text, passed through unchanged. */
  function InsiderSummary(insider: Option<seq<InsiderRow>>): (r: string)
    ensures insider.None? || insider.value == [] ==> r == NoRecentData
    ensures insider.Some? && insider.value != [] ==> r == insider.value[0].text.GetOr(DefaultInsiderText)
  {
    match insider
    case None => NoRecentData
    case Some(rows) => if rows == [] then NoRecentData else rows[0].text.GetOr(DefaultInsiderText)
  }

  /** The pair (news, insider) that `get_detailed_info` returns. */
  function DetailedInfo(l: Lookup): (r: (string, string))
    ensures l.LookupFailed? ==> r == (NoNews, NoData)
    ensures r.0 == NoNews <==> l.LookupFailed? || l.news == []
    ensures l.Fetched? ==> r.1 == InsiderSummary(l.insider)
    ensures l.Fetched? && |l.news| == 1 ==> r.0 == NewsLink(l.news[0])
    ensures l.Fetched? && |l.news| >= 2 ==> r.0 == NewsLink(l.news[0]) + LinkSeparator + NewsLink(l.news[1])
  {
    match l
    case LookupFailed => (NoNews, NoData)
    case Fetched(news, insider) =>
      var items := Headlines(news);
      var links := seq(|items|, i requires 0 <= i < |items| => NewsLink(items[i]));
      var text := if links == [] then NoNews else Join(LinkSeparator, links);
      assert links != [] ==> text[0] == '\U{2022}' != NoNews[0];
      (text, InsiderSummary(insider))
  }

  /** `get_detailed_info`: the loop of lines 9-13 builds the links one by one. */
  method GetDetailedInfo(l: Lookup) returns (news: string, insider: string)
    ensures (news, insider) == DetailedInfo(l)
  {
    if l.LookupFailed? {
      return NoNews, NoData;
    }
    var items := Headlines(l.news);
    var links: seq<string> := [];
    for i := 0 to |items|
      invariant |links| == i
      invariant forall j :: 0 <= j < i ==> links[j] == NewsLink(items[j])
    {
      links := links + [NewsLink(items[i])];
    }
    insider := NoRecentData;
    if l.insider.Some? && l.insider.value != [] {
      insider := l.insider.value[0].text.GetOr(DefaultInsiderText);
    }
    news := if links != [] then Join(LinkSeparator, links) else NoNews;
    assert links == seq(|items|, i requires 0 <= i < |items| => NewsLink(items[i]));
  }

  /** Items after the second never reach the report: only `news[:2]` is read. */
  lemma NewsFromFirstTwoItems(news: seq<NewsItem>, insider: Option<seq<InsiderRow>>)
    requires |news| > MaxNews
    ensures DetailedInfo(Fetched(news, insider)) == DetailedInfo(Fetched(news[..MaxNews], insider))
  {
  }
}
