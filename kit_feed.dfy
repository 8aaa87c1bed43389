/** netlify/functions/kit-feed.js: scrapes the public Kit profile page and
    returns one item per `.creator-profile-feed-item` element, in document
    order. */
module KitFeed {
  import opened Js

  /** The site every item link points into. */
  const ProfileBase := "https://essam-shamim.kit.com"

  /** The message of the TypeError thrown by `.split` on the `undefined`
      that `attr('href')` gives when an element has no link. */
  const MissingHrefMessage := "Cannot read properties of undefined (reading 'split')"

  /** A matched element, as the scraper reads it: the text of its `h2`, the
      `href` of its first `a` (None when there is none), the text of its `.date`. */
  datatype Element = Element(heading: string, href: Option<string>, dateText: string)

  /** An item of the JSON answer. */
  datatype KitItem = KitItem(title: string, link: string, date: string, slug: string)

  /** What `axios.get` produced: an error with its message, or the page's
      matched elements in document order. */
  datatype PageFetch = FetchFailed(message: string) | Page(elements: seq<Element>)

  datatype Payload = Items(items: seq<KitItem>) | Error(message: string)

  /** The function's result; only the success answer carries a JSON content type. */
  datatype Response = Response(statusCode: int, jsonContentType: bool, body: Payload)

  /** The object pushed for one element. */
  function ItemOf(e: Element): KitItem
    requires e.href.Some?
  {
    var href := e.href.value;
    KitItem(Trim(e.heading), ProfileBase + href, Trim(e.dateText), AfterLastSlash(href))
  }

  /** What each pushed object holds: trimmed title and date, a link made of the
      profile base followed by the href, and as slug the href's last
      `/`-separated segment, which holds no slash, ends the href, and is the
      whole href or follows a slash. */
  lemma ItemShape(e: Element)
    requires e.href.Some?
    ensures var r, href := ItemOf(e), e.href.value;
            r.title == Trim(e.heading) && r.date == Trim(e.dateText) &&
            r.link == ProfileBase + href &&
            '/' !in r.slug &&
            |r.slug| <= |href| && href[|href| - |r.slug|..] == r.slug &&
            (|r.slug| < |href| ==> href[|href| - |r.slug| - 1] == '/')
  {
    AfterLastSlashIsFinalSegment(e.href.value);
  }

  /** Every element has a link, so none of them makes the loop throw. */
  predicate AllLinked(elements: seq<Element>) {
    forall k :: 0 <= k < |elements| ==> elements[k].href.Some?
  }

  /** The items of a page whose elements all have links, one per element, in order. */
  function ItemsOf(elements: seq<Element>): (r: seq<KitItem>)
    requires AllLinked(elements)
    ensures |r| == |elements|
  {
    if elements == [] then []
    else ItemsOf(elements[..|elements| - 1]) + [ItemOf(elements[|elements| - 1])]
  }

  /** Item `k` of the answer is made from element `k`. */
  lemma {:induction false} ItemsOfAt(elements: seq<Element>, k: nat)
    requires AllLinked(elements) && k < |elements|
    ensures ItemsOf(elements)[k] == ItemOf(elements[k])
  {
    if k < |elements| - 1 {
      var front := elements[..|elements| - 1];
      ItemsOfAt(front, k);
      assert front[k] == elements[k];
    }
  }

  /** One more linked element adds its own item at the end. */
  lemma PushStep(elements: seq<Element>, i: nat)
    requires i < |elements| && AllLinked(elements[..i]) && elements[i].href.Some?
    ensures AllLinked(elements[..i + 1])
    ensures ItemsOf(elements[..i + 1]) == ItemsOf(elements[..i]) + [ItemOf(elements[i])]
  {
    assert elements[..i + 1][..i] == elements[..i];
  }

  /** The `.each` loop that pushes one item per element. An element without a
      link throws, and the items already pushed are then discarded. */
  method Scrape(elements: seq<Element>) returns (r: Payload)
    ensures AllLinked(elements) ==> r == Items(ItemsOf(elements))
    ensures !AllLinked(elements) ==> r == Error(MissingHrefMessage)
  {
    var items: seq<KitItem> := [];
    var i := 0;
    while i < |elements|
      invariant 0 <= i <= |elements|
      invariant AllLinked(elements[..i])
      invariant items == ItemsOf(elements[..i])
    {
      var e := elements[i];
      if e.href.None? {
        return Error(MissingHrefMessage);
      }
      PushStep(elements, i);
      items := items + [ItemOf(e)];
      i := i + 1;
    }
    assert elements[..i] == elements;
    r := Items(items);
  }

  /** The handler: 200 with the scraped items, or 500 with the message of
      whatever was thrown (the fetch, or an element without a link) and no items. */
  method Handle(fetched: PageFetch) returns (resp: Response)
    ensures fetched.FetchFailed? ==> resp == Response(500, false, Error(fetched.message))
    ensures fetched.Page? && AllLinked(fetched.elements) ==>
              resp == Response(200, true, Items(ItemsOf(fetched.elements)))
    ensures fetched.Page? && !AllLinked(fetched.elements) ==>
              resp == Response(500, false, Error(MissingHrefMessage))
  {
    match fetched
    case FetchFailed(message) =>
      resp := Response(500, false, Error(message));
    case Page(elements) =>
      var body := Scrape(elements);
      if body.Items? {
        resp := Response(200, true, body);
      } else {
        resp := Response(500, false, body);
      }
  }

  /** Every answered item leads back into the profile site, and its link ends
      with its slug. */
  lemma LinksEndWithSlug(elements: seq<Element>, k: nat)
    requires AllLinked(elements) && k < |elements|
    ensures var item := ItemsOf(elements)[k];
            |ProfileBase| + |item.slug| <= |item.link| &&
            item.link[..|ProfileBase|] == ProfileBase &&
            item.link[|item.link| - |item.slug|..] == item.slug
  {
    var item, href := ItemsOf(elements)[k], elements[k].href.value;
    ItemsOfAt(elements, k);
    ItemShape(elements[k]);
    assert item.link[|ProfileBase|..] == href;
  }
}
