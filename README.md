# twit3r feed and composer, modelled in Dafny

This project models the two pieces of logic in the twit3r web client that do
more than render: the timeline feed (`src/components/Timeline.tsx`) and the
post composer (`src/components/CreateTweet.tsx`).

- `timeline.dfy`, module `Timeline` (pure, like the source). The cached
  infinite-query data is an `InfiniteData` value. It holds pages of tweets, each
  with a `nextCursor`, plus the `pageParams`. `UpdateCache` is `updateCache`'s
  updater. It gives every tweet whose id matches `likes = [userId]` on a like
  and `[]` on an unlike, and moves `_count.likes` by +1 or −1. It passes every
  other tweet through and rebuilds each page as `{ tweets }` alone. `ApplyPatch`
  is `setQueryData` applied to that updater. `Click` is the heart's click
  handler. `ShouldFetchNextPage` is the effect's guard. `Flatten`/`Feed` are
  `flatMap` over the pages.
- `create_tweet.dfy`, module `CreateTweet` (mixed). `Parse` is
  `tweetSchema.parse`, a length rule over UTF-16 code units, because zod
  compares `string.length`. `ComposerState` together with `Change`, `Submit` and
  `CreateSucceeded` describes the component's state (`text`, `error`), the
  create requests it issued and the cache invalidations it asked for. The
  class `Composer` holds the same fields and updates them in place. Each of its
  methods is proved to produce exactly the state the matching function gives.
  `Run` folds a sequence of user events over the state. The lemmas about `Run`
  state what holds over any interaction.
- `wrappers.dfy`: `Option`, which stands for JavaScript's `undefined`.

Two facts about the code are worth stating up front. First, `setText('')`
runs only after `parse` has succeeded (CreateTweet.tsx:24-25), so a rejected
submission keeps its text; `Submit` models this. Second, the like patch is
not idempotent, and `LikeTwiceCountsTwice` proves it.

## Model

| member | source | states |
|---|---|---|
| `Timeline.PatchTweet` | src/components/Timeline.tsx:77-88 | a tweet with another id is returned unchanged; a matching tweet keeps id, text, author and createdAt, and gets likes `[userId]` and count +1 on like, likes `[]` and count −1 on unlike (no clamping at zero) |
| `Timeline.PatchTweets` | src/components/Timeline.tsx:77-88 | `tweets.map`: same length, and the i-th result is the patch of the i-th tweet |
| `Timeline.PatchPages` | src/components/Timeline.tsx:75-90 | `pages.map`: same number of pages, the p-th result is the p-th page rebuilt from its patched tweets |
| `Timeline.UpdateCache` | src/components/Timeline.tsx:72-94 | page count and order kept, tweet count and order in every page kept; `pageParams` preserved; every page's `nextCursor` dropped; every tweet keeps id, text, author, createdAt; non-matching tweets unchanged; every matching tweet on every page gets `[userId]` and +1 on like, `[]` and −1 on unlike |
| `Timeline.ApplyPatch` | src/components/Timeline.tsx:65-95 | the updater throws exactly when nothing is cached under the key; otherwise the cache is replaced by exactly the updater's result `UpdateCache` of the cached value, whose feed is the old feed with every tweet patched |
| `Timeline.Flatten` | src/components/Timeline.tsx:169 | a tweet is in the flattened feed exactly when it is in some page |
| `Timeline.Feed` | src/components/Timeline.tsx:169 | no cached data gives the empty feed; otherwise the feed is the pages' tweets concatenated in page order, duplicates kept, so a tweet is shown exactly when some page holds it |
| `Timeline.FlattenAppend` | src/components/Timeline.tsx:169 | appending a fetched page appends its tweets after the whole existing feed |
| `Timeline.FlattenPatchCommutes` | src/components/Timeline.tsx:75-90 | the feed after the patch equals the old feed with the per-tweet patch applied to each element: every occurrence, on every page, is patched, and the order is kept |
| `Timeline.LikeTwiceCountsTwice` | src/components/Timeline.tsx:73-84 | the patch is not idempotent: two likes of a present tweet raise its count by 2, and the second result differs from the first |
| `Timeline.LikeThenUnlike` | src/components/Timeline.tsx:73-84 | like then unlike of the same id gives back every tweet exactly, except that matching tweets end with empty likes (counts restored) |
| `Timeline.Click` | src/components/Timeline.tsx:121-151 | one mutation per click, for the clicked tweet: unlike exactly when its likes are non-empty, like exactly when they are empty |
| `Timeline.ClickToggles` | src/components/Timeline.tsx:107-151 | when the clicked mutation's patch lands, the tweet's liked state flips and its count moves by one in the matching direction |
| `Timeline.NextPageParam` | src/components/Timeline.tsx:166 | with no pages there is no next page parameter; otherwise it is exactly the last page's `nextCursor` |
| `Timeline.ShouldFetchNextPage` | src/components/Timeline.tsx:171-175 | the next page is requested if and only if the scroll position is strictly above 90, a next page exists and no fetch is in flight |
| `Timeline.FetchAtThreshold` | src/components/Timeline.tsx:172 | with a cursor on the last page and nothing in flight: fetch above 90, none at or below 90, none while fetching |
| `Timeline.PatchEndsPagination` | src/components/Timeline.tsx:76-89 | after any like or unlike on data that had a next page, the patched data has no next page and the guard cannot fire on it (until a refetch replaces the pages) |
| `Timeline.PatchPageKeepingCursor` | src/components/Timeline.tsx:76-89 | the corrected page patch: the same tweets as the written one, with the page's cursor kept |
| `Timeline.UpdateCacheKeepingCursor` | src/components/Timeline.tsx:75-94 | the corrected cache patch: same page count and page params, every page keeps its cursor, and every page holds exactly the tweets `updateCache` gives |
| `Timeline.KeepingCursorPreservesPagination` | src/components/Timeline.tsx:166-172 | under the corrected patch the next page parameter and the fetch decision are unchanged, and the feed is the same as under `updateCache` |
| `CreateTweet.Parse` | src/components/CreateTweet.tsx:5-7 | accepted exactly when 10 ≤ length ≤ 280 in code units, returning the text itself; too small exactly when shorter than 10, too big exactly when longer than 280 |
| `CreateTweet.BoundsInclusive` | src/components/CreateTweet.tsx:6 | lengths exactly 10 and 280 are accepted; 9 is too small and 281 too big |
| `CreateTweet.Change` | src/components/CreateTweet.tsx:38 | typing replaces `text` and nothing else |
| `CreateTweet.Submit` | src/components/CreateTweet.tsx:21-31 | on rejection `error` is set (to the too-small issue exactly when the text is short), `text` and the requests are unchanged; on acceptance `text` becomes empty, exactly one request carrying the pre-clear text is appended, and `error` is left as it was |
| `CreateTweet.CreateSucceeded` | src/components/CreateTweet.tsx:15-18 | `text` becomes empty and the tweet cache is invalidated once more; error and requests unchanged |
| `CreateTweet.CreateSucceededClearsIdempotently` | src/components/CreateTweet.tsx:15-18 | clearing twice leaves `text` empty; on an already empty text only the invalidation count changes |
| `CreateTweet.ResubmitWithoutTyping` | src/components/CreateTweet.tsx:21-31 | a second submit right after an accepted one issues no request and sets the too-small error, since the state's text is already empty |
| `CreateTweet.RunKeepsRequestsValid` | src/components/CreateTweet.tsx:21-31 | over any sequence of typing, submits and create successes, every create request issued carries a text of length in [10, 280] |
| `CreateTweet.RunAppendsRequests` | src/components/CreateTweet.tsx:24-30 | over any event sequence, requests are only appended, and at most one per submit |
| `CreateTweet.RunKeepsError` | src/components/CreateTweet.tsx:26-28 | once `error` is set it is never reset by any later event, valid submissions included |
| `CreateTweet.Composer.constructor` | src/components/CreateTweet.tsx:10-11 | `text` and `error` start empty; nothing issued or invalidated |
| `CreateTweet.Composer.OnChange` | src/components/CreateTweet.tsx:38 | the new state is `Change` of the old one; the issued-requests invariant is kept |
| `CreateTweet.Composer.HandleSubmit` | src/components/CreateTweet.tsx:21-31 | the new state is `Submit` of the old one: rejection sets the error and keeps text and requests; acceptance clears text and appends one request with the text captured before clearing |
| `CreateTweet.Composer.OnCreateSuccess` | src/components/CreateTweet.tsx:15-18 | the new state is `CreateSucceeded` of the old one |

## Findings

| source | as written | input that shows it | evidently intended | confidence | as-written member | corrected member |
|---|---|---|---|---|---|---|
| src/components/Timeline.tsx:76-89 | each patched page is rebuilt as `{ tweets }`, so its `nextCursor` is lost; `getNextPageParam` (line 166) then finds no cursor on the last page | cached data with one page whose `nextCursor` is `"c"`, any like or unlike: afterwards there is no next page until the timeline query is refetched (for example after a post is created), so scrolling past 90% does not fetch and the end-of-feed marker shows | `{ ...page, tweets: ... }`, which keeps the cursor | medium, not executed (assumes the query library derives `hasNextPage` from the last page's cursor; lasts only until the timeline query is refetched, e.g. by the invalidation after a successful create) | `Timeline.PatchEndsPagination` | `Timeline.KeepingCursorPreservesPagination` |

`UpdateCache` and `ApplyPatch` keep the source's behaviour, because they model
the code. The corrected patch `UpdateCacheKeepingCursor` sits beside them. It is
proved to change the same tweets and to leave pagination intact.

## Left out

- `useScrollPosition` (Timeline.tsx:37-56): DOM reads, scroll listeners and floating-point percentage arithmetic. The scroll position enters `ShouldFetchNextPage` as a `real`, so JavaScript's `NaN` (for a document of zero scrollable height) is not modelled.
- The dayjs locale set-up and relative-time formatting (Timeline.tsx:16-35, 137): presentation through an external library.
- The query and remote-call plumbing. Left out: `useInfiniteQuery`, `useMutation`, `useQueryClient`, the query-key addressing of `setQueryData` (the feed and the patch both use the key built from `{ where, limit: LIMIT }`), and `invalidate` (counted, not performed). Also left out: the `LIMIT` page size, which is only passed to the server. The server procedures `create`, `timeline`, `like` and `unlike` are not part of this model.
- `hasNextPage`: the query library computes it, and it is modelled as "the last page has a cursor" (`NextPageParam`).
- The asynchronous ordering of overlapping like/unlike or create responses. Each response is modelled as one atomic step (`ApplyPatch`, `CreateSucceeded`) in whatever order the events are given.
- Failures of the remote calls: rejected `mutateAsync` promises are not caught in the source, and they are not modelled.
- `e.preventDefault()` and all JSX rendering, styling, images and links. The textarea is uncontrolled (it has no `value` prop), so what it displays after `setText('')` is DOM state and is not modelled. Only the component's `text` state is.
- zod internals beyond the two length checks: the text of `err.message` is abstracted to the issue (`TooSmall`/`TooBig`). The `required_error` branch is not modelled, because `text` always comes from `useState('')` and `onChange` and is never undefined.
- Like counts are unbounded integers. JavaScript numbers are exact at these sizes.
- `_count` is modelled with its `likes` field only. The patch rebuilds it as `{ likes }`, so any other field in it would be dropped, and the model does not show that.
- src/components/LoggedOutBanner.tsx: it renders nothing when a session exists and otherwise shows a button that calls the authentication library. There is no logic in it to verify.
