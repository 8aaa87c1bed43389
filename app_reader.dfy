/** `ArticleReader` in src/App.jsx: which version of a post the reader shows
    (the one it was handed, or the one fetched by slug) and the fallbacks for
    each displayed field. */
module Reader {
  import opened Js
  import opened Posts

  /** How `fetchCmsPostBySlug` settled: it threw, or returned `data.item || null`. */
  datatype SingleFetch = SingleFailed | Single(item: Option<Post>)

  /** The slug the reader asks the CMS for, or None when it makes no request:
      a post that already carries `contentHtml` is never fetched again, and a
      post without a slug cannot be. */
  function RequestedSlug(article: Option<Post>): (r: Option<string>)
    ensures r.Some? <==> article.Some? && !Truthy(article.value.contentHtml) && Truthy(article.value.slug)
    ensures r.Some? ==> r == article.value.slug
  {
    if article.Some? && !Truthy(article.value.contentHtml) && Truthy(article.value.slug) then
      article.value.slug
    else
      None
  }

  /** The `full` state once loading is over. It is the post the reader was
      handed unless a fetch was made and returned an item, in which case it is
      that item; a failed fetch or an empty answer falls back to the post. */
  function Resolve(article: Option<Post>, fetched: SingleFetch): (full: Option<Post>)
    ensures RequestedSlug(article).Some? && fetched.Single? && fetched.item.Some? ==> full == fetched.item
    ensures RequestedSlug(article).None? ==> full == article
    ensures fetched == SingleFailed || fetched == Single(None) ==> full == article
    ensures article.Some? ==> full.Some?
  {
    if RequestedSlug(article).Some? && fetched.Single? && fetched.item.Some? then fetched.item
    else article
  }

  /** What the reader displays. `date` is the raw value handed to `formatDate`. */
  datatype View = View(title: string, date: Option<string>, readingTime: int, excerpt: string, contentHtml: string)

  function TitleOf(p: Option<Post>): Option<string> { if p.Some? then p.value.title else None }
  function DateOf(p: Option<Post>): Option<string> { if p.Some? then p.value.date else None }
  function ExcerptOf(p: Option<Post>): Option<string> { if p.Some? then p.value.excerpt else None }
  function ContentOf(p: Option<Post>): Option<string> { if p.Some? then p.value.contentHtml else None }
  function ReadingTimeOf(p: Option<Post>): Option<int> { if p.Some? then p.value.readingTime else None }

  /** The displayed fields. Title, date, excerpt and reading time each take
      the fetched post's value when it is truthy, else the handed post's, else
      a default ("" for text, 4 for the reading time, so it is never 0); the
      body comes from the fetched post alone. */
  function ViewOf(article: Option<Post>, full: Option<Post>): (v: View)
    ensures Truthy(TitleOf(full)) ==> v.title == TitleOf(full).value
    ensures !Truthy(TitleOf(full)) && Truthy(TitleOf(article)) ==> v.title == TitleOf(article).value
    ensures v.title == "" <==> !Truthy(TitleOf(full)) && !Truthy(TitleOf(article))
    ensures Truthy(DateOf(full)) ==> v.date == DateOf(full)
    ensures !Truthy(DateOf(full)) ==> v.date == DateOf(article)
    ensures Truthy(ExcerptOf(full)) ==> v.excerpt == ExcerptOf(full).value
    ensures !Truthy(ExcerptOf(full)) && Truthy(ExcerptOf(article)) ==> v.excerpt == ExcerptOf(article).value
    ensures v.excerpt == "" <==> !Truthy(ExcerptOf(full)) && !Truthy(ExcerptOf(article))
    ensures v.readingTime != 0
    ensures TruthyNum(ReadingTimeOf(full)) ==> v.readingTime == ReadingTimeOf(full).value
    ensures !TruthyNum(ReadingTimeOf(full)) && TruthyNum(ReadingTimeOf(article)) ==>
              v.readingTime == ReadingTimeOf(article).value
    ensures !TruthyNum(ReadingTimeOf(full)) && !TruthyNum(ReadingTimeOf(article)) ==> v.readingTime == 4
    ensures Truthy(ContentOf(full)) ==> v.contentHtml == ContentOf(full).value
    ensures v.contentHtml == "" <==> !Truthy(ContentOf(full))
  {
    View(
      OrElse(Or(TitleOf(full), TitleOf(article)), ""),
      Or(DateOf(full), DateOf(article)),
      OrElseNum(ReadingTimeOf(full), ReadingTimeOf(article), 4),
      OrElse(Or(ExcerptOf(full), ExcerptOf(article)), ""),
      OrElse(ContentOf(full), ""))
  }

  /** A fetched post that has every shown field hides the handed post
      entirely: the view is the one the fetched post would give alone. */
  lemma CompleteFetchHidesHandedPost(article: Option<Post>, p: Post)
    requires Truthy(p.title) && Truthy(p.date) && Truthy(p.excerpt) && TruthyNum(p.readingTime)
    ensures ViewOf(article, Some(p)) == ViewOf(None, Some(p))
    ensures ViewOf(article, Some(p)).title == p.title.value
  {
  }

  /** A post that is missing every shown field is shown entirely from the
      handed post, with the defaults where that one too is missing a field,
      except for the body, which only the fetched post supplies. */
  lemma EmptyFetchFallsBackToHandedPost(article: Option<Post>, p: Post)
    requires !Truthy(p.title) && !Truthy(p.date) && !Truthy(p.excerpt) && !TruthyNum(p.readingTime)
    ensures var v := ViewOf(article, Some(p));
            v.title == OrElse(TitleOf(article), "") && v.date == DateOf(article) &&
            v.excerpt == OrElse(ExcerptOf(article), "") &&
            v.readingTime == OrElseNum(ReadingTimeOf(article), None, 4)
  {
  }

  /** A post that carries its own HTML is shown as it is, whatever a fetch
      would have returned: its body, its title and its reading time (4 when it
      has none). */
  lemma OwnContentShownWithoutFetch(article: Post, fetched: SingleFetch)
    requires Truthy(article.contentHtml)
    ensures var v := ViewOf(Some(article), Resolve(Some(article), fetched));
            v.contentHtml == article.contentHtml.value &&
            v.title == OrElse(article.title, "") &&
            v.readingTime == (if TruthyNum(article.readingTime) then article.readingTime.value else 4)
  {
    assert RequestedSlug(Some(article)).None?;
  }
}
