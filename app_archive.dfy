/** `NewsletterArchive` in src/App.jsx: the archive list, ten posts per page,
    with Previous/Next buttons and a page index that resets whenever the
    number of posts changes. */
module Archive {
  import opened Js
  import opened Posts
  import Journal

  const ItemsPerPage: nat := 10

  /** `Math.max(1, Math.ceil(n / itemsPerPage))`: at least one page, and for a
      non-empty list the least number of ten-post pages that holds every post. */
  function TotalPages(n: nat): (r: nat)
    ensures r >= 1
    ensures n == 0 ==> r == 1
    ensures n > 0 ==> (r - 1) * ItemsPerPage < n <= r * ItemsPerPage
  {
    var pages := (n + ItemsPerPage - 1) / ItemsPerPage;
    if pages < 1 then 1 else pages
  }

  /** `all.slice(page * itemsPerPage, (page + 1) * itemsPerPage)`: the block of
      at most ten posts starting at `page * 10`, in order; empty past the end. */
  function PageSlice<T>(all: seq<T>, page: nat): (r: seq<T>)
    ensures |r| <= ItemsPerPage
    ensures |r| == if page * ItemsPerPage < |all| then Min(ItemsPerPage, |all| - page * ItemsPerPage) else 0
    ensures forall i :: 0 <= i < |r| ==> r[i] == all[page * ItemsPerPage + i]
  {
    Slice(all, page * ItemsPerPage, (page + 1) * ItemsPerPage)
  }

  /** The pages `0 .. k-1` laid end to end. */
  ghost function FirstPages<T>(all: seq<T>, k: nat): seq<T> {
    if k == 0 then [] else FirstPages(all, k - 1) + PageSlice(all, k - 1)
  }

  /** The first `k` pages are exactly the first `min(n, 10k)` posts. */
  lemma {:induction false} FirstPagesArePrefix<T>(all: seq<T>, k: nat)
    ensures FirstPages(all, k) == all[..Min(|all|, k * ItemsPerPage)]
  {
    if k > 0 {
      FirstPagesArePrefix(all, k - 1);
      var lo, hi := Min(|all|, (k - 1) * ItemsPerPage), Min(|all|, k * ItemsPerPage);
      var page := PageSlice(all, k - 1);
      assert page == all[lo..hi];
      assert all[..lo] + all[lo..hi] == all[..hi];
    }
  }

  /** Paging loses and repeats nothing: the pages `0 .. TotalPages(n)-1`,
      read in order, are the whole list. */
  lemma PagesPartitionList<T>(all: seq<T>)
    ensures FirstPages(all, TotalPages(|all|)) == all
  {
    FirstPagesArePrefix(all, TotalPages(|all|));
  }

  /** For a non-empty list, a page shows posts exactly when its index is below
      the page count: "No posts yet." never appears on a reachable page. */
  lemma PageNonEmptyIff<T>(all: seq<T>, page: nat)
    ensures |all| > 0 ==> (PageSlice(all, page) != [] <==> page < TotalPages(|all|))
  {
    var n, t := |all|, TotalPages(|all|);
    if n == 0 {
    } else if page < t {
      assert page * ItemsPerPage <= (t - 1) * ItemsPerPage < n;
    } else {
      assert page * ItemsPerPage >= t * ItemsPerPage >= n;
    }
  }

  /** The home cards are the first cards of the archive's first page. */
  lemma HomeCardsLeadFirstPage(items: Option<seq<Post>>)
    ensures var top, first := Journal.TopThree(items), PageSlice(ArrayOrEmpty(items), 0);
            |top| <= |first| && top == first[..|top|]
  {
  }

  /** The archive view's state: the posts it was given and the page index. */
  class ArchiveView {
    var articles: seq<Post>
    var page: nat

    /** The page index always names an existing page. */
    ghost predicate Valid()
      reads this
    {
      page < TotalPages(|articles|)
    }

    /** First render: `allArticles` is `items` when it is an array, page 0. */
    constructor (items: Option<seq<Post>>)
      ensures Valid()
      ensures articles == ArrayOrEmpty(items) && page == 0
    {
      articles := ArrayOrEmpty(items);
      page := 0;
    }

    /** `currentArticles`: never empty while there are posts to show. */
    function CurrentArticles(): (r: seq<Post>)
      reads this
      ensures r == PageSlice(articles, page)
      ensures Valid() && articles != [] ==> r != []
      ensures |r| <= ItemsPerPage
    {
      PageNonEmptyIff(articles, page);
      PageSlice(articles, page)
    }

    /** The Previous button's `disabled` attribute. */
    function PreviousDisabled(): bool
      reads this
    {
      page == 0
    }

    /** The Next button's `disabled` attribute. */
    function NextDisabled(): bool
      reads this
    {
      page >= TotalPages(|articles|) - 1
    }

    /** Previous: `setPage(p => Math.max(0, p - 1))`. It never goes below page 0,
        and when the button is enabled it moves back exactly one page. */
    method Previous()
      requires Valid()
      modifies this`page
      ensures Valid()
      ensures old(PreviousDisabled()) ==> page == 0 == old(page)
      ensures !old(PreviousDisabled()) ==> page == old(page) - 1
    {
      var p: int := page - 1;
      page := if p < 0 then 0 else p;
    }

    /** Next: `setPage(p => Math.min(totalPages - 1, p + 1))`. It never goes past
        the last page, and when the button is enabled it moves on exactly one page. */
    method Next()
      requires Valid()
      modifies this`page
      ensures Valid()
      ensures page <= TotalPages(|articles|) - 1
      ensures old(NextDisabled()) ==> page == old(page)
      ensures !old(NextDisabled()) ==> page == old(page) + 1
    {
      var last := TotalPages(|articles|) - 1;
      page := Min(last, page + 1);
    }

    /** New `items` from the parent, followed by the effect keyed on
        `allArticles.length`: the page resets to 0 when the count changed and
        is kept otherwise. */
    method Receive(items: Option<seq<Post>>)
      requires Valid()
      modifies this
      ensures Valid()
      ensures articles == ArrayOrEmpty(items)
      ensures |articles| != old(|articles|) ==> page == 0
      ensures |articles| == old(|articles|) ==> page == old(page)
    {
      var count := |articles|;
      articles := ArrayOrEmpty(items);
      if |articles| != count {
        page := 0;
      }
    }
  }
}
