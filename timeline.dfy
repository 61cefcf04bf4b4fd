/**
 * The feed of src/components/Timeline.tsx: the cached infinite-query data of
 * the timeline, the cache patch applied after a like or unlike succeeds
 * (`updateCache`), the choice between like and unlike on a click, the guard
 * that requests the next page, and the flattening of pages into the feed.
 * Everything here is a value: the source builds new data and mutates nothing.
 */
module Timeline {
  import opened Wrappers

  type TweetId = string
  type UserId = string
  type Cursor = string

  datatype Author = Author(name: string, image: Option<string>)

  /** The `_count` object of a tweet; the patch rebuilds it as `{ likes }`. */
  datatype LikeCount = LikeCount(likes: int)

  /**
   * A tweet as the timeline query returns it. `likes` holds the viewer's own
   * like, so it has zero or one element in what the server sends.
   */
  datatype Tweet = Tweet(
    id: TweetId,
    text: string,
    author: Author,
    createdAt: int,
    likes: seq<UserId>,
    count: LikeCount)

  /** One page of the timeline query: its tweets and the cursor of the next page. */
  datatype Page = Page(tweets: seq<Tweet>, nextCursor: Option<Cursor>)

  /** The cached infinite-query value: the pages and the page parameters they were fetched with. */
  datatype InfiniteData = InfiniteData(pages: seq<Page>, pageParams: seq<Option<Cursor>>)

  datatype Action = Like | Unlike

  /** The mutation a click issues: which procedure, for which tweet. */
  datatype MutationRequest = MutationRequest(action: Action, tweetId: TweetId)

  /** What `setQueryData` does with the updater: replace the cached value, or fail when the updater throws. */
  datatype SetResult = Replaced(data: InfiniteData) | UpdaterThrew

  /** The fields of a tweet that the object spread carries over unchanged. */
  predicate SameIdentity(t: Tweet, u: Tweet) {
    t.id == u.id && t.text == u.text && t.author == u.author && t.createdAt == u.createdAt
  }

  // ---------------------------------------------------------------------------
  // updateCache
  // ---------------------------------------------------------------------------

  /** +1 on like, -1 on unlike. */
  function Delta(action: Action): int {
    if action == Like then 1 else -1
  }

  /** The inner `tweets.map` callback of the patch. */
  function PatchTweet(t: Tweet, tweetId: TweetId, userId: UserId, action: Action): (r: Tweet)
    ensures SameIdentity(t, r)
    ensures t.id != tweetId ==> r == t
    ensures t.id == tweetId && action == Like ==>
      r.likes == [userId] && r.count.likes == t.count.likes + 1
    ensures t.id == tweetId && action == Unlike ==>
      r.likes == [] && r.count.likes == t.count.likes - 1
  {
    if t.id == tweetId then
      t.(likes := if action == Like then [userId] else [],
         count := LikeCount(t.count.likes + Delta(action)))
    else
      t
  }

  /** `page.tweets.map(...)`: the patch applied to every tweet of a list, in order. */
  function PatchTweets(ts: seq<Tweet>, tweetId: TweetId, userId: UserId, action: Action): (r: seq<Tweet>)
    ensures |r| == |ts|
    ensures forall i :: 0 <= i < |ts| ==> r[i] == PatchTweet(ts[i], tweetId, userId, action)
  {
    if ts == [] then []
    else [PatchTweet(ts[0], tweetId, userId, action)] + PatchTweets(ts[1..], tweetId, userId, action)
  }

  /** The outer `pages.map` callback: the page is rebuilt as `{ tweets }` alone, so its cursor is lost. */
  function PatchPage(page: Page, tweetId: TweetId, userId: UserId, action: Action): Page {
    Page(PatchTweets(page.tweets, tweetId, userId, action), None)
  }

  /** `newData.pages.map(...)`. */
  function PatchPages(pages: seq<Page>, tweetId: TweetId, userId: UserId, action: Action): (r: seq<Page>)
    ensures |r| == |pages|
    ensures forall p :: 0 <= p < |pages| ==> r[p] == PatchPage(pages[p], tweetId, userId, action)
  {
    if pages == [] then []
    else [PatchPage(pages[0], tweetId, userId, action)] + PatchPages(pages[1..], tweetId, userId, action)
  }

  /**
   * The updater passed to `setQueryData` by `updateCache`, applied to the
   * cached data: `{ ...newData, pages: newTweets }`.
   */
  function UpdateCache(d: InfiniteData, tweetId: TweetId, userId: UserId, action: Action): (r: InfiniteData)
    // the shape is kept: same pages in the same order, same tweets in the same order
    ensures |r.pages| == |d.pages|
    ensures forall p :: 0 <= p < |d.pages| ==> |r.pages[p].tweets| == |d.pages[p].tweets|
    // other top-level fields pass through, but every page loses its cursor
    ensures r.pageParams == d.pageParams
    ensures forall p :: 0 <= p < |d.pages| ==> r.pages[p].nextCursor == None
    // tweets keep their identity; only matching ones change, and each of them does
    ensures forall p, i :: 0 <= p < |d.pages| && 0 <= i < |d.pages[p].tweets| ==>
      SameIdentity(d.pages[p].tweets[i], r.pages[p].tweets[i])
    ensures forall p, i ::
      (0 <= p < |d.pages| && 0 <= i < |d.pages[p].tweets| && d.pages[p].tweets[i].id != tweetId) ==>
        r.pages[p].tweets[i] == d.pages[p].tweets[i]
    ensures forall p, i ::
      (0 <= p < |d.pages| && 0 <= i < |d.pages[p].tweets| && d.pages[p].tweets[i].id == tweetId && action == Like) ==>
        r.pages[p].tweets[i].likes == [userId] &&
        r.pages[p].tweets[i].count.likes == d.pages[p].tweets[i].count.likes + 1
    ensures forall p, i ::
      (0 <= p < |d.pages| && 0 <= i < |d.pages[p].tweets| && d.pages[p].tweets[i].id == tweetId && action == Unlike) ==>
        r.pages[p].tweets[i].likes == [] &&
        r.pages[p].tweets[i].count.likes == d.pages[p].tweets[i].count.likes - 1
  {
    d.(pages := PatchPages(d.pages, tweetId, userId, action))
  }

  /**
   * `client.setQueryData(key, updater)` for the timeline key: the updater
   * reads `newData.pages`, which throws when nothing is cached under the key.
   */
  function ApplyPatch(cached: Option<InfiniteData>, tweetId: TweetId, userId: UserId, action: Action): (r: SetResult)
    ensures r.UpdaterThrew? <==> cached.None?
    ensures r.Replaced? ==> |r.data.pages| == |cached.value.pages| && r.data.pageParams == cached.value.pageParams
    ensures r.Replaced? ==> Flatten(r.data.pages) == PatchTweets(Flatten(cached.value.pages), tweetId, userId, action)
    ensures r.Replaced? ==> r.data == UpdateCache(cached.value, tweetId, userId, action)
  {
    match cached
    case None => UpdaterThrew
    case Some(d) =>
      FlattenPatchCommutes(d.pages, tweetId, userId, action);
      Replaced(UpdateCache(d, tweetId, userId, action))
  }

  // ---------------------------------------------------------------------------
  // The feed
  // ---------------------------------------------------------------------------

  /** `pages.flatMap((page) => page.tweets)`. */
  function Flatten(pages: seq<Page>): (r: seq<Tweet>)
    ensures forall t :: t in r <==> exists p :: 0 <= p < |pages| && t in pages[p].tweets
  {
    if pages == [] then [] else pages[0].tweets + Flatten(pages[1..])
  }

  /** The tweets the feed renders: `data?.pages.flatMap(...) ?? []`. */
  function Feed(data: Option<InfiniteData>): (r: seq<Tweet>)
    ensures data.None? ==> r == []
    ensures data.Some? ==>
      forall t :: t in r <==> exists p :: 0 <= p < |data.value.pages| && t in data.value.pages[p].tweets
    ensures data.Some? ==> r == Flatten(data.value.pages)
  {
    match data
    case None => []
    case Some(d) => Flatten(d.pages)
  }

  /** Fetching one more page puts its tweets after every tweet already in the feed. */
  lemma {:induction false} FlattenAppend(pages: seq<Page>, page: Page)
    ensures Flatten(pages + [page]) == Flatten(pages) + page.tweets
  {
    if pages == [] {
      assert pages + [page] == [page];
    } else {
      assert (pages + [page])[1..] == pages[1..] + [page];
      FlattenAppend(pages[1..], page);
    }
  }

  /** Patching a concatenation patches each part. */
  lemma PatchTweetsAppend(a: seq<Tweet>, b: seq<Tweet>, tweetId: TweetId, userId: UserId, action: Action)
    ensures PatchTweets(a + b, tweetId, userId, action)
         == PatchTweets(a, tweetId, userId, action) + PatchTweets(b, tweetId, userId, action)
  {
  }

  /**
   * The feed after the patch is the feed before it with every tweet patched:
   * every occurrence of the tweet, on every page, changes, and order is kept.
   */
  lemma {:induction false} FlattenPatchCommutes(pages: seq<Page>, tweetId: TweetId, userId: UserId, action: Action)
    ensures Flatten(PatchPages(pages, tweetId, userId, action))
         == PatchTweets(Flatten(pages), tweetId, userId, action)
  {
    if pages != [] {
      var patched := PatchPages(pages, tweetId, userId, action);
      assert patched[1..] == PatchPages(pages[1..], tweetId, userId, action);
      FlattenPatchCommutes(pages[1..], tweetId, userId, action);
      PatchTweetsAppend(pages[0].tweets, Flatten(pages[1..]), tweetId, userId, action);
    }
  }

  // ---------------------------------------------------------------------------
  // Sequences of patches
  // ---------------------------------------------------------------------------

  /**
   * The patch is not idempotent: a second like of the same tweet adds one
   * more to its count, so the result differs from a single like.
   */
  lemma LikeTwiceCountsTwice(d: InfiniteData, tweetId: TweetId, userId: UserId, p: nat, i: nat)
    requires p < |d.pages| && i < |d.pages[p].tweets| && d.pages[p].tweets[i].id == tweetId
    ensures var once := UpdateCache(d, tweetId, userId, Like);
      var twice := UpdateCache(once, tweetId, userId, Like);
      twice.pages[p].tweets[i].count.likes == d.pages[p].tweets[i].count.likes + 2 &&
      twice.pages[p].tweets[i].likes == [userId] &&
      twice != once
  {
  }

  /**
   * A like followed by an unlike of the same tweet restores every count and
   * leaves that tweet's likes empty; every other tweet is as it was.
   */
  lemma LikeThenUnlike(d: InfiniteData, tweetId: TweetId, liker: UserId, unliker: UserId)
    ensures var r := UpdateCache(UpdateCache(d, tweetId, liker, Like), tweetId, unliker, Unlike);
      |r.pages| == |d.pages| &&
      forall p, i :: 0 <= p < |d.pages| && 0 <= i < |d.pages[p].tweets| ==>
        r.pages[p].tweets[i] ==
          (var t := d.pages[p].tweets[i]; if t.id == tweetId then t.(likes := []) else t)
  {
  }

  // ---------------------------------------------------------------------------
  // Click dispatch
  // ---------------------------------------------------------------------------

  /** `hasliked`: the viewer's like is present. */
  predicate HasLiked(t: Tweet) {
    |t.likes| > 0
  }

  /** The heart's click handler issues one mutation: unlike when liked, like otherwise. */
  function Click(t: Tweet): (r: MutationRequest)
    ensures r.tweetId == t.id
    ensures r.action == Unlike <==> |t.likes| > 0
    ensures r.action == Like <==> t.likes == []
  {
    if HasLiked(t) then MutationRequest(Unlike, t.id) else MutationRequest(Like, t.id)
  }

  /**
   * Once the clicked mutation succeeds, the patched tweet shows the opposite
   * liked state, and its count moves by one in the matching direction.
   */
  lemma ClickToggles(t: Tweet, userId: UserId)
    ensures var m := Click(t);
      var u := PatchTweet(t, m.tweetId, userId, m.action);
      HasLiked(u) == !HasLiked(t) &&
      u.count.likes == if HasLiked(t) then t.count.likes - 1 else t.count.likes + 1
  {
  }

  // ---------------------------------------------------------------------------
  // Next-page fetch
  // ---------------------------------------------------------------------------

  /**
   * `getNextPageParam: (lastPage) => lastPage.nextCursor`, applied to the last
   * page as the query library does; nothing when there is no page.
   */
  function NextPageParam(pages: seq<Page>): (r: Option<Cursor>)
    ensures r.Some? ==> |pages| > 0 && pages[|pages| - 1].nextCursor == r
    ensures |pages| > 0 ==> r == pages[|pages| - 1].nextCursor
  {
    if pages == [] then None else pages[|pages| - 1].nextCursor
  }

  /** `hasNextPage`: the next page parameter is defined. */
  predicate HasNextPage(pages: seq<Page>) {
    NextPageParam(pages).Some?
  }

  /** The effect's guard: `scrollPosition > 90 && hasNextPage && !isFetching`. */
  function ShouldFetchNextPage(scrollPosition: real, hasNextPage: bool, isFetching: bool): (r: bool)
    ensures r ==> scrollPosition > 90.0 && hasNextPage && !isFetching
    ensures scrollPosition > 90.0 && hasNextPage && !isFetching ==> r
  {
    scrollPosition > 90.0 && hasNextPage && !isFetching
  }

  /**
   * A feed scrolled past the threshold, whose last page has a cursor and with
   * no fetch in flight, asks for the next page; exactly at 90 it does not.
   */
  lemma FetchAtThreshold(pages: seq<Page>, scrollPosition: real)
    requires |pages| > 0 && pages[|pages| - 1].nextCursor.Some?
    ensures scrollPosition > 90.0 ==> ShouldFetchNextPage(scrollPosition, HasNextPage(pages), false)
    ensures scrollPosition <= 90.0 ==> !ShouldFetchNextPage(scrollPosition, HasNextPage(pages), false)
    ensures !ShouldFetchNextPage(scrollPosition, HasNextPage(pages), true)
  {
  }

  // ---------------------------------------------------------------------------
  // The lost cursor, and the patch that keeps it
  // ---------------------------------------------------------------------------

  /**
   * As written, any like or unlike ends infinite scrolling: the patched last
   * page has no cursor, so there is no next page and the guard never fires.
   */
  lemma PatchEndsPagination(d: InfiniteData, tweetId: TweetId, userId: UserId, action: Action, scrollPosition: real, isFetching: bool)
    requires HasNextPage(d.pages)
    ensures var r := UpdateCache(d, tweetId, userId, action);
      !HasNextPage(r.pages) && !ShouldFetchNextPage(scrollPosition, HasNextPage(r.pages), isFetching)
  {
  }

  /** The page callback as evidently intended: `{ ...page, tweets: ... }`. */
  function PatchPageKeepingCursor(page: Page, tweetId: TweetId, userId: UserId, action: Action): (r: Page)
    ensures r.nextCursor == page.nextCursor
    ensures r.tweets == PatchPage(page, tweetId, userId, action).tweets
  {
    page.(tweets := PatchTweets(page.tweets, tweetId, userId, action))
  }

  /** `updateCache` with the page cursors carried over. */
  function UpdateCacheKeepingCursor(d: InfiniteData, tweetId: TweetId, userId: UserId, action: Action): (r: InfiniteData)
    ensures |r.pages| == |d.pages| && r.pageParams == d.pageParams
    ensures forall p :: 0 <= p < |d.pages| ==>
      r.pages[p].nextCursor == d.pages[p].nextCursor &&
      r.pages[p].tweets == UpdateCache(d, tweetId, userId, action).pages[p].tweets
  {
    d.(pages := seq(|d.pages|, p requires 0 <= p < |d.pages| => PatchPageKeepingCursor(d.pages[p], tweetId, userId, action)))
  }

  /**
   * The corrected patch changes the same tweets as `updateCache` and keeps
   * pagination going: the next page parameter, and so the guard, are unchanged.
   */
  lemma KeepingCursorPreservesPagination(d: InfiniteData, tweetId: TweetId, userId: UserId, action: Action, scrollPosition: real, isFetching: bool)
    ensures var r := UpdateCacheKeepingCursor(d, tweetId, userId, action);
      NextPageParam(r.pages) == NextPageParam(d.pages) &&
      ShouldFetchNextPage(scrollPosition, HasNextPage(r.pages), isFetching)
        == ShouldFetchNextPage(scrollPosition, HasNextPage(d.pages), isFetching) &&
      Flatten(r.pages) == Flatten(UpdateCache(d, tweetId, userId, action).pages)
  {
    var r := UpdateCacheKeepingCursor(d, tweetId, userId, action);
    var w := UpdateCache(d, tweetId, userId, action);
    SameTweetsSameFeed(r.pages, w.pages);
  }

  /** Two page lists with the same tweets page by page give the same feed. */
  lemma {:induction false} SameTweetsSameFeed(a: seq<Page>, b: seq<Page>)
    requires |a| == |b| && forall p :: 0 <= p < |a| ==> a[p].tweets == b[p].tweets
    ensures Flatten(a) == Flatten(b)
  {
    if a != [] {
      SameTweetsSameFeed(a[1..], b[1..]);
    }
  }
}
