# essam-website: the site's logic in Dafny

The site is a React single-page marketing site with three Netlify functions
behind it. Almost all of it is markup. This project models the parts that make
decisions:

- **Archive pagination** (`NewsletterArchive`): the page count, the ten-post
  page slice, the clamped Previous/Next handlers, their `disabled` rules and
  the reset of the page index when the number of posts changes.
- **Post loading and selection**: `useCmsPosts` (the posts list, or the
  built-in fallback post when the CMS fails), the home page's first three
  cards (`JournalSection`), and `ArticleReader`'s choice between the post it
  was handed and the one fetched by slug, with the fallbacks for each shown field.
- **The two email subscription forms**: the inline one in `src/App.jsx` and
  the stand-alone component. Each has the status machine idle → loading →
  success/error and its own rule for what typing does to an error.
- **`kit-subscribe`**: the ordered guards (method, trimmed email, server
  configuration, Kit's answer), each with its fixed status and JSON error envelope.
- **`beehiiv-feed` and `kit-feed`**: the two feed normalisers. The first keeps
  six RSS items and fills in defaults. The second scrapes the Kit profile
  page. It builds each link from a fixed base and takes the slug as the href's
  last path segment.

Everything the code reaches outside itself is a parameter. That covers an
HTTP response (its `ok` flag, or that it threw), a parsed feed (a sequence of
records whose fields may be absent), a scraped page (a sequence of
heading/href/date records) and each environment variable (an `Option<string>`).
JavaScript's falsiness is modelled explicitly. An absent string or `""` is
falsy, and so is an absent number or `0`. `js.dfy` holds the JavaScript
operations the code uses: `||` defaults, `Array.prototype.slice`,
`String.prototype.trim` and `split("/").pop()`.

Files: `js.dfy` (module `Js`), `app_posts.dfy` (`Posts`, `Journal`),
`app_archive.dfy` (`Archive`), `app_reader.dfy` (`Reader`), `subscription.dfy`
(`Subscription`: the email test and the status values both forms share),
`app_subscribe_form.dfy` (`AppSubscribeForm`), `subscription_form.dfy`
(`SubscriptionForm`), `kit_subscribe.dfy`, `beehiiv_feed.dfy`, `kit_feed.dfy`.

State that the source keeps in React `useState` is a class. `ArchiveView`
holds the page, `PostsHook` the items and the loading flag, and the two form
classes the email and the status. Their methods are the handlers and effects,
and their contracts tie the new state to the old. The serverless handlers
`kit-subscribe` and `beehiiv-feed` are expressions, so they are functions.
`kit-feed` builds its answer with a `push` loop, so it is a method with a loop
and is proved against the function `ItemsOf`.

An async `handleSubmit` is split at its `await` into `Submit` and `Settle`.
`Submit` runs the guard and sets `loading`, and it returns the request body it
would send. `Settle` is the continuation once the fetch has settled.

## Model

| member | source | states |
|---|---|---|
| `Js.Slice` | src/App.jsx:977 | `slice(start, end)` with non-negative bounds: its length is `min(end, n) - start` when positive, else 0, and element `i` is input element `start + i` |
| `Js.TrimStartSpec` | netlify/functions/kit-subscribe.js:11 | the result is a suffix of the input that does not start with white space, and every dropped character is white space |
| `Js.TrimEndSpec` | netlify/functions/kit-subscribe.js:11 | the result is a prefix of the input that does not end with white space, and every dropped character is white space |
| `Js.TrimSpec` | netlify/functions/kit-subscribe.js:11 | `trim()` gives a contiguous part of the input with no white space at either end, and every character outside it is white space |
| `Js.TrimKeepsNonSpace` | netlify/functions/kit-subscribe.js:11-13 | a character that is not white space, such as '@', occurs in the trimmed string iff it occurs in the original |
| `Js.TrimOfTrimmed` | netlify/functions/kit-subscribe.js:11 | a string with no white space at either end is its own trim |
| `Js.TrimIdempotent` | netlify/functions/kit-subscribe.js:11 | trimming twice is trimming once |
| `Js.Split` | netlify/functions/kit-feed.js:17 | `split("/")` yields at least one piece, and no piece holds a slash |
| `Js.JoinSplit` | netlify/functions/kit-feed.js:17 | joining the pieces of `split("/")` with "/" gives back the string |
| `Js.AfterLastSlashIsFinalSegment` | netlify/functions/kit-feed.js:17 | `split("/").pop()` has no slash, the string ends with it, and the character before it, if any, is a slash |
| `Posts.LoadedPosts` | src/App.jsx:490-498 | any fetch failure yields the fallback posts; an answer yields `data.items` when it is an array, else nothing; the list is empty exactly when the CMS answered without posts |
| `Posts.PostsHook.constructor` | src/App.jsx:483-484 | the hook starts with no posts and loading |
| `Posts.PostsHook.Load` | src/App.jsx:489-501 | once the fetch settles, the items are `LoadedPosts` of the outcome and loading is off, failure or not |
| `Journal.TopThree` | src/App.jsx:902-905 | the home cards are the first `min(3, n)` posts in order, and none when `items` is not an array |
| `Journal.NoCardsIffEmptyAnswer` | src/App.jsx:928-931 | the "No posts yet" message on the home page appears exactly when the CMS answered with an empty or missing list |
| `Archive.TotalPages` | src/App.jsx:975-976 | the page count is at least 1, is 1 for no posts, and otherwise is ⌈n/10⌉: the least count of ten-post pages holding all n |
| `Archive.PageSlice` | src/App.jsx:977 | page `p` shows at most ten posts, exactly those from index `10p` to `min(n, 10p+10)`, in order |
| `Archive.FirstPagesArePrefix` | src/App.jsx:977 | the first `k` pages laid end to end are the first `min(n, 10k)` posts |
| `Archive.PagesPartitionList` | src/App.jsx:975-977 | all pages laid end to end are the whole list, with nothing lost or repeated |
| `Archive.PageNonEmptyIff` | src/App.jsx:975-977 | for a non-empty list, a page shows posts iff its index is below the page count |
| `Archive.HomeCardsLeadFirstPage` | src/App.jsx:902-905 | for the same list, the home page's cards are the first entries of the archive's first page |
| `Archive.ArchiveView.constructor` | src/App.jsx:972-974 | the archive starts on page 0 with `items` when it is an array, else with no posts |
| `Archive.ArchiveView.CurrentArticles` | src/App.jsx:977 | the shown page holds at most ten posts and is never empty while there are posts |
| `Archive.ArchiveView.Previous` | src/App.jsx:1040-1043 | Previous never goes below page 0; it is disabled exactly on page 0, and when enabled it moves back one page |
| `Archive.ArchiveView.Next` | src/App.jsx:1055-1058 | Next never goes past the last page; it is disabled there, and when enabled it moves on one page |
| `Archive.ArchiveView.Receive` | src/App.jsx:983-985 | new items reset the page to 0 when their count changed and keep it otherwise; the page stays valid |
| `Subscription.CheckAgreesAfterTrim` | netlify/functions/kit-subscribe.js:11-18 | the forms' test on the raw field and the endpoint's test on the trimmed value accept the same strings |
| `AppSubscribeForm.InlineForm.constructor` | src/App.jsx:354-355 | the inline form starts idle with an empty field |
| `AppSubscribeForm.InlineForm.Edit` | src/App.jsx:417-420 | typing sets the field, and turns `error` into `idle`; other statuses are kept (input and button are disabled while loading) |
| `AppSubscribeForm.InlineForm.Submit` | src/App.jsx:360-365 | an empty field or one without '@' sets `error` and sends nothing; otherwise it sets `loading` and sends the field as it stands |
| `AppSubscribeForm.InlineForm.Settle` | src/App.jsx:367-383 | an ok response ends in `success` with the field cleared; a failed response or a thrown error ends in `error` with the field kept |
| `SubscriptionForm.SubscriptionForm.constructor` | src/components/ui/EmailSubscriptionForm.jsx:5-6 | the component starts idle with an empty field |
| `SubscriptionForm.SubscriptionForm.Edit` | src/components/ui/EmailSubscriptionForm.jsx:30 | typing changes only the field, never the status |
| `SubscriptionForm.SubscriptionForm.Submit` | src/components/ui/EmailSubscriptionForm.jsx:9-10 | an empty field or one without '@' sets `error` and sends nothing; otherwise it sets `loading` before the request and sends the field (the button is disabled while loading) |
| `SubscriptionForm.SubscriptionForm.Settle` | src/components/ui/EmailSubscriptionForm.jsx:11-19 | an ok response ends in `success` with the field cleared; a failed response or a thrown error ends in `error` |
| `SubscriptionForm.EditAfterFailure` | src/components/ui/EmailSubscriptionForm.jsx:30 | after any failed submission, typing returns the inline form to `idle` but leaves the component in `error` |
| `Reader.RequestedSlug` | src/App.jsx:1088-1098 | the reader fetches by slug exactly when the post has no `contentHtml` and has a slug, and it asks for that slug |
| `Reader.Resolve` | src/App.jsx:1087-1101 | the shown post is the handed one unless a fetch was made and returned an item, in which case it is that item |
| `Reader.ViewOf` | src/App.jsx:1112-1116 | title, date, excerpt and reading time are each the fetched post's value when truthy, else the handed post's, else "" (4 for the reading time, which is never 0); the body is the fetched post's HTML or "" |
| `Reader.CompleteFetchHidesHandedPost` | src/App.jsx:1112-1116 | a fetched post with every shown field present gives the same view whatever post was handed |
| `Reader.EmptyFetchFallsBackToHandedPost` | src/App.jsx:1112-1115 | a fetched post missing every shown field leaves title, date, excerpt and reading time to the handed post and the defaults |
| `Reader.OwnContentShownWithoutFetch` | src/App.jsx:1088-1091 | a post with its own HTML is shown with that HTML, its title and its reading time (4 if none), whatever a fetch would return |
| `KitSubscribe.KitUrl` | netlify/functions/kit-subscribe.js:30 | the Kit URL is the forms prefix, then the form id unaltered, then `/subscribe` |
| `KitSubscribe.EmailValue` | netlify/functions/kit-subscribe.js:10-11 | the email is `body.email` trimmed, "" when missing or falsy; reading it throws exactly for an unparseable body or a truthy non-string |
| `KitSubscribe.Handle` | netlify/functions/kit-subscribe.js:1-58 | non-POST gets 405 before the body is read; 400 exactly when the trimmed email is empty or lacks '@'; Kit is called exactly when all guards pass, with the trimmed email at the form's URL; 200 exactly on Kit's ok; 400 always carries "Invalid email"; an unreadable body or email, a thrown `fetch` and an unreadable Kit reply each give 500 "Server error"; Kit's failure text gives 500 "Kit request failed"; every response is JSON |
| `KitSubscribe.ConfigCheckedLast` | netlify/functions/kit-subscribe.js:20-28 | "Missing server config" is answered exactly when method and email passed and a setting is missing or empty |
| `KitSubscribe.UpstreamFailureCarriesDetails` | netlify/functions/kit-subscribe.js:41-47 | a non-ok answer from Kit gives 500 "Kit request failed" with Kit's text as details |
| `KitSubscribe.FormAddressPassesEmailGuard` | netlify/functions/kit-subscribe.js:11-18 | an address either form would send never gets 400, and with configuration present Kit receives it trimmed |
| `BeehiivFeed.Normalise` | netlify/functions/beehiiv-feed.js:18-21 | title and link default to ""; the date is `isoDate`, else `pubDate`, else ""; the category is the first category, else "Journal", and never empty |
| `BeehiivFeed.FirstItems` | netlify/functions/beehiiv-feed.js:17-22 | the answer has `min(6, n)` items, item `i` normalised from feed item `i`; a missing items list reads as empty |
| `BeehiivFeed.Handle` | netlify/functions/beehiiv-feed.js:3-35 | a missing or empty feed URL gives 500 "Missing BEEHIIV_RSS_URL" without parsing; a parse error gives 500 with its message; otherwise 200 JSON with the items |
| `BeehiivFeed.LaterItemsIgnored` | netlify/functions/beehiiv-feed.js:17 | items past the sixth never change the answer |
| `KitFeed.ItemShape` | netlify/functions/kit-feed.js:13-18 | title and date are trimmed texts, the link is the profile base followed by the href, and the slug is the href's final slash-free segment |
| `KitFeed.ItemsOf` | netlify/functions/kit-feed.js:12-19 | one item per matched element |
| `KitFeed.ItemsOfAt` | netlify/functions/kit-feed.js:12-19 | item `k` is made from element `k`, in document order |
| `KitFeed.Scrape` | netlify/functions/kit-feed.js:9-19 | the push loop yields `ItemsOf` when every element has a link; one element without a link throws and discards the items pushed so far |
| `KitFeed.Handle` | netlify/functions/kit-feed.js:4-29 | 200 JSON with one item per element, or 500 with the thrown message (fetch error, or an element without a link) and no items |
| `KitFeed.LinksEndWithSlug` | netlify/functions/kit-feed.js:15-17 | every answered link starts with the profile base and ends with its slug |

The `disabled` rules are plain predicates without contracts. They are
`ArchiveView.PreviousDisabled`, `ArchiveView.NextDisabled`,
`InlineForm.ControlsDisabled` and `SubscriptionForm.SubmitDisabled`, which are
true exactly in the `loading` state, and `ShowsConfirmation`, since on success
the form is replaced by a message. The `Previous`/`Next` contracts state their
behaviour through them.

## Left out

- All rendering, styling and the static sections (hero, manifesto, testimonials, course, footer, navigation) are presentation only.
- The canvas background animation uses floating point, `Math.random` and animation frames.
- `Reveal`/`useReveal` and navigation scrolling are driven by DOM observers, scroll events and timers.
- `formatDate` depends on JavaScript `Date` parsing and locale formatting. `Reader.ViewOf` keeps the raw date string that would be formatted.
- `fetch`, `axios`, the RSS parser, cheerio's HTML querying and `process.env` are inputs: outcome datatypes, element records and optional strings.
- `kit-feed` reads `KIT_PUBLIC_FEED_URL` without checking it. What `axios.get` does with a missing URL is part of the fetch outcome.
- `cheerio`'s `text()` of several matched `h2`/`.date` nodes is taken as one given string.
- The `cancelled`/`isMounted` unmount guards and the ordering of concurrent async completions are not modelled. Each async step is one atomic method.
- `ArchiveView.Receive`: new items and the reset effect happen in one step. The render in between, which may slice with a stale page index and show an empty page, is not modelled.
- `Js.IsSpace` covers the ECMAScript white-space and line-terminator code points by their numbers. Unicode categories are not derived.
- JavaScript numbers are Dafny integers. `NaN`, fractional reading times and integer overflow are not modelled.
- In `beehiiv-feed`, RSS categories are taken to be strings. The parser's object-valued categories are not modelled.
- The home page's cards and the archive come from two separate `useCmsPosts()` calls (the one in `JournalSection` and the one in `App`), so one may fall back while the other succeeds. `Archive.HomeCardsLeadFirstPage` relates them only when both hold the same list.
- src/components/sections/LatestWriting.jsx and src/pages/Newsletter.jsx only repeat `slice(0, 3)` and `items || []`, which `Journal.TopThree` and `Js.ArrayOrEmpty` already cover.
- The browser's own `type="email"` / `required` validation of the field is not part of this model.
