/** netlify/functions/beehiiv-feed.js: reads the newsletter's RSS feed and
    returns its first six items, each reduced to title, link, date and
    category with defaults for whatever is missing. */
module BeehiivFeed {
  import opened Js

  const MaxItems: nat := 6
  const DefaultCategory := "Journal"

  /** An item as the RSS parser yields it; every field may be absent. */
  datatype RssItem = RssItem(
    title: Option<string>,
    link: Option<string>,
    isoDate: Option<string>,
    pubDate: Option<string>,
    categories: Option<seq<string>>)

  /** An item of the JSON answer. */
  datatype FeedItem = FeedItem(title: string, link: string, date: string, category: string)

  /** What `parser.parseURL` produced: an error with its message, or a feed
      with its `items` (None when absent). */
  datatype ParseOutcome = ParseFailed(message: string) | Parsed(items: Option<seq<RssItem>>)

  datatype Payload = Items(items: seq<FeedItem>) | Error(message: string)

  /** The function's result; only the success answer carries a JSON content type. */
  datatype Response = Response(statusCode: int, jsonContentType: bool, body: Payload)

  /** `(item.categories && item.categories[0]) || "Journal"`. */
  function FirstCategory(categories: Option<seq<string>>): Option<string> {
    if categories.Some? && |categories.value| > 0 then Some(categories.value[0]) else None
  }

  /** One item of the `map`: title and link default to "", the date is the ISO
      date, else the publication date, else "", and the category is the first
      category, else "Journal". Whatever the feed holds, the category is never empty. */
  function Normalise(item: RssItem): (r: FeedItem)
    ensures r.title == (if item.title.Some? then item.title.value else "")
    ensures r.link == (if item.link.Some? then item.link.value else "")
    ensures Truthy(item.isoDate) ==> r.date == item.isoDate.value
    ensures !Truthy(item.isoDate) ==> r.date == (if item.pubDate.Some? then item.pubDate.value else "")
    ensures r.category != ""
    ensures Truthy(FirstCategory(item.categories)) ==> r.category == item.categories.value[0]
    ensures !Truthy(FirstCategory(item.categories)) ==> r.category == DefaultCategory
  {
    FeedItem(
      OrElse(item.title, ""),
      OrElse(item.link, ""),
      OrElse(Or(item.isoDate, item.pubDate), ""),
      OrElse(FirstCategory(item.categories), DefaultCategory))
  }

  /** `(feed.items || []).slice(0, 6).map(...)`: at most six items, the first
      ones of the feed, in feed order, one output per input. */
  function FirstItems(items: Option<seq<RssItem>>): (r: seq<FeedItem>)
    ensures |r| == Min(MaxItems, |ArrayOrEmpty(items)|)
    ensures forall i :: 0 <= i < |r| ==> r[i] == Normalise(items.value[i])
  {
    var first := Slice(ArrayOrEmpty(items), 0, MaxItems);
    seq(|first|, i requires 0 <= i < |first| => Normalise(first[i]))
  }

  /** The handler. Without `BEEHIIV_RSS_URL` (missing or empty) it answers 500
      before parsing anything; a parse or fetch error answers 500 with its
      message; otherwise 200 with the normalised items. */
  function Handle(feedUrl: Option<string>, parsed: ParseOutcome): (r: Response)
    ensures !Truthy(feedUrl) ==> r == Response(500, false, Error("Missing BEEHIIV_RSS_URL"))
    ensures Truthy(feedUrl) && parsed.ParseFailed? ==> r == Response(500, false, Error(parsed.message))
    ensures r.statusCode == 200 <==> Truthy(feedUrl) && parsed.Parsed?
    ensures r.statusCode == 200 ==> r.jsonContentType && r.body == Items(FirstItems(parsed.items))
    ensures r.statusCode != 200 ==> r.statusCode == 500 && !r.jsonContentType && r.body.Error?
  {
    if !Truthy(feedUrl) then
      Response(500, false, Error("Missing BEEHIIV_RSS_URL"))
    else
      match parsed
      case ParseFailed(message) => Response(500, false, Error(message))
      case Parsed(items) => Response(200, true, Items(FirstItems(items)))
  }

  /** Items past the sixth never reach the answer: appending anything to a
      feed of six or more items leaves the answer unchanged. */
  lemma LaterItemsIgnored(items: seq<RssItem>, more: seq<RssItem>)
    requires |items| >= MaxItems
    ensures FirstItems(Some(items + more)) == FirstItems(Some(items))
  {
    var a, b := FirstItems(Some(items + more)), FirstItems(Some(items));
    assert |a| == |b|;
    forall i | 0 <= i < |a|
      ensures a[i] == b[i]
    {
      assert (items + more)[i] == items[i];
    }
  }
}
