/** The CMS post record and the `useCmsPosts` hook of src/App.jsx: one list
    fetch whose outcome decides the posts shown everywhere else. */
module Posts {
  import opened Js

  /** A CMS post as the UI reads it; every field may be absent. */
  datatype Post = Post(
    id: Option<string>,
    slug: Option<string>,
    title: Option<string>,
    date: Option<string>,
    category: Option<string>,
    excerpt: Option<string>,
    readingTime: Option<int>,
    heroColor: Option<string>,
    contentHtml: Option<string>)

  /** The single built-in post shown when the CMS cannot be reached. */
  const FallbackPosts: seq<Post> := [
    Post(
      Some("208"),
      Some("test-post"),
      Some("Test Post"),
      Some("2025-12-28T14:41:04.000Z"),
      Some("Journal"),
      Some("Fallback content while CMS endpoints are not connected yet."),
      Some(4),
      Some("bg-[#0f172a]"),
      Some("<p>This is fallback HTML content.</p><p>Connect your custom CMS endpoints to load real posts.</p>"))
  ]

  /** What the list fetch produced. `Unreadable` covers a body that is not
      JSON or is JSON `null` (reading `.items` then throws); `Listed` carries
      `data.items`, None when it is not an array. */
  datatype ListFetch = NetworkError | NotOk | Unreadable | Listed(items: Option<seq<Post>>)

  /** The list the hook settles on. Any failure of the fetch yields the
      fallback posts; an answer yields its `items` array, or nothing when
      `items` is not an array. In particular the list is empty exactly when
      the CMS answered without posts. */
  function LoadedPosts(f: ListFetch): (r: seq<Post>)
    ensures !f.Listed? ==> r == FallbackPosts
    ensures f.Listed? && f.items.Some? ==> r == f.items.value
    ensures r == [] <==> f.Listed? && (f.items.None? || f.items.value == [])
  {
    match f
    case Listed(items) => if items.Some? then items.value else []
    case _ => FallbackPosts
  }

  /** The state `useCmsPosts` keeps: the posts and whether the fetch is still pending. */
  class PostsHook {
    var items: seq<Post>
    var loading: bool

    /** First render: no posts yet, loading. */
    constructor ()
      ensures items == [] && loading
    {
      items := [];
      loading := true;
    }

    /** The effect's `load()` once the fetch has settled: `setItems` in the
        `try` or the `catch`, then `setLoading(false)` in the `finally`. */
    method Load(f: ListFetch)
      modifies this
      ensures items == LoadedPosts(f)
      ensures !loading
    {
      if f.Listed? {
        var list := ArrayOrEmpty(f.items);
        items := list;
      } else {
        items := FallbackPosts;
      }
      loading := false;
    }
  }
}

/** `JournalSection` in src/App.jsx: the three cards on the home page. */
module Journal {
  import opened Js
  import opened Posts

  /** The `top3` memo: the first three posts (fewer when there are fewer), in
      their original order; nothing when `items` is not an array. */
  function TopThree(items: Option<seq<Post>>): (r: seq<Post>)
    ensures items.None? ==> r == []
    ensures items.Some? ==> |r| == Min(3, |items.value|) && r == items.value[..|r|]
  {
    Slice(ArrayOrEmpty(items), 0, 3)
  }

  /** The home page shows no cards exactly when the loaded list is empty,
      which happens only when the CMS answered with no posts. */
  lemma NoCardsIffEmptyAnswer(f: ListFetch)
    ensures TopThree(Some(LoadedPosts(f))) == [] <==> f.Listed? && ArrayOrEmpty(f.items) == []
  {
    var r := TopThree(Some(LoadedPosts(f)));
    if LoadedPosts(f) != [] {
      assert |r| >= 1;
    }
  }
}
