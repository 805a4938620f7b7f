/** The pagination state machine of the Contentful "posts" hook: a pure
    transition function over four fetch-lifecycle actions. */
module PostsReducer {

  /** The fields of a Contentful entries response that the reducer reads.
      `includedEntries` and `includedAssets` are `includes.Entry` and
      `includes.Asset`. */
  datatype Envelope<Raw> = Envelope(
    total: int,
    skip: int,
    limit: int,
    items: seq<Raw>,
    includedEntries: seq<Raw>,
    includedAssets: seq<Raw>)

  /** The hook's state. `skipPosts` is the skip of the next page request. */
  datatype State<Post> = State(
    posts: seq<Post>,
    isLoading: bool,
    isError: bool,
    skipPosts: int,
    hasNextPage: bool)

  /** The four action tags; no other tag can be built, so the reducer's
      "unknown action" error cannot arise. */
  datatype Action<Raw> =
    | FetchStart
    | FetchFirstPageSuccess(payload: Envelope<Raw>, resetSkipPostsTo: int)
    | FetchMoreSuccess(payload: Envelope<Raw>)
    | FetchFail

  /** Whether posts remain beyond the page the response describes: more posts
      follow the skipped ones than this page holds. */
  function NextPage(total: int, skip: int, limit: int): (r: bool)
    ensures r <==> total - skip > limit
  {
    total > skip + limit
  }

  /** `constructPostData`: the external Contentful converter applied to the
      response's items and to its included assets followed by its entries. */
  function ConstructPostData<Raw, Post>(convert: (seq<Raw>, seq<Raw>) -> seq<Post>, data: Envelope<Raw>): (r: seq<Post>)
    ensures r == convert(data.items, data.includedAssets + data.includedEntries)
  {
    convert(data.items, data.includedAssets + data.includedEntries)
  }

  /** The state the hook starts from. */
  function InitialState<Post>(firstPagePostAmount: int): (s: State<Post>)
    ensures s.posts == [] && !s.isLoading && !s.isError
    ensures s.skipPosts == firstPagePostAmount && !s.hasNextPage
  {
    State([], false, false, firstPagePostAmount, false)
  }

  function Reducer<Raw, Post>(convert: (seq<Raw>, seq<Raw>) -> seq<Post>, s: State<Post>, a: Action<Raw>): (r: State<Post>)
    // FETCH_START and FETCH_FAIL touch the two flags and nothing else
    ensures (a.FetchStart? || a.FetchFail?) ==>
              r.posts == s.posts && r.skipPosts == s.skipPosts && r.hasNextPage == s.hasNextPage
    ensures a.FetchStart? ==> r.isLoading && !r.isError
    ensures a.FetchFail? ==> !r.isLoading && r.isError
    // a success clears both flags and takes hasNextPage from the payload alone
    ensures (a.FetchFirstPageSuccess? || a.FetchMoreSuccess?) ==>
              !r.isLoading && !r.isError &&
              (r.hasNextPage <==> a.payload.total > a.payload.skip + a.payload.limit)
    // the first page replaces every field: none depends on s
    ensures a.FetchFirstPageSuccess? ==>
              r.skipPosts == a.resetSkipPostsTo &&
              (|a.payload.items| == 0 ==> r.posts == []) &&
              (|a.payload.items| > 0 ==> r.posts == ConstructPostData(convert, a.payload))
    // a further page appends its posts after the old ones and moves the cursor by the page's limit
    ensures a.FetchMoreSuccess? ==>
              r.posts == s.posts + ConstructPostData(convert, a.payload) &&
              r.skipPosts == s.skipPosts + a.payload.limit
  {
    match a
    case FetchStart => s.(isLoading := true, isError := false)
    case FetchFirstPageSuccess(p, resetTo) =>
      var posts := if |p.items| == 0 then [] else ConstructPostData(convert, p);
      State(posts, false, false, resetTo, NextPage(p.total, p.skip, p.limit))
    case FetchMoreSuccess(p) =>
      var newPosts := ConstructPostData(convert, p);
      s.(posts := s.posts + newPosts, isLoading := false, isError := false,
         skipPosts := s.skipPosts + p.limit, hasNextPage := NextPage(p.total, p.skip, p.limit))
    case FetchFail => s.(isLoading := false, isError := true)
  }

  /** A Contentful response echoes the request's skip and limit. When it does,
      hasNextPage after a further page says exactly whether the advanced cursor
      still lies below the total, i.e. whether the next request would start at
      an existing post. */
  lemma MoreSuccessCursorBelowTotal<Raw, Post>(convert: (seq<Raw>, seq<Raw>) -> seq<Post>, s: State<Post>, p: Envelope<Raw>)
    requires p.skip == s.skipPosts
    ensures var r := Reducer(convert, s, FetchMoreSuccess(p));
            r.hasNextPage <==> r.skipPosts < p.total
  {
  }

  /** The same for the first page, requested without a skip (so the response
      echoes skip 0) and with the first-page amount as its limit, which is also
      the cursor it resets to. */
  lemma FirstPageCursorBelowTotal<Raw, Post>(convert: (seq<Raw>, seq<Raw>) -> seq<Post>, s: State<Post>, p: Envelope<Raw>, firstPagePostAmount: int)
    requires p.skip == 0 && p.limit == firstPagePostAmount
    ensures var r := Reducer(convert, s, FetchFirstPageSuccess(p, firstPagePostAmount));
            r.hasNextPage <==> r.skipPosts < p.total
  {
  }

  /** Applies a sequence of actions in order. */
  function Replay<Raw, Post>(convert: (seq<Raw>, seq<Raw>) -> seq<Post>, s: State<Post>, actions: seq<Action<Raw>>): State<Post>
    decreases |actions|
  {
    if actions == [] then s else Replay(convert, Reducer(convert, s, actions[0]), actions[1..])
  }

  /** No action in the sequence is a first-page success (the only reset). */
  predicate NoReset<Raw>(actions: seq<Action<Raw>>) {
    forall i :: 0 <= i < |actions| ==> !actions[i].FetchFirstPageSuccess?
  }

  /** Dropping the first action keeps a sequence free of resets. */
  lemma NoResetTail<Raw>(actions: seq<Action<Raw>>)
    requires actions != [] && NoReset(actions)
    ensures !actions[0].FetchFirstPageSuccess? && NoReset(actions[1..])
  {
  }

  /** The posts one action delivers: a further page's, otherwise none. */
  function PageOf<Raw, Post>(convert: (seq<Raw>, seq<Raw>) -> seq<Post>, a: Action<Raw>): seq<Post> {
    if a.FetchMoreSuccess? then ConstructPostData(convert, a.payload) else []
  }

  /** How far one action moves the cursor: a further page's limit, otherwise 0. */
  function AdvanceOf<Raw>(a: Action<Raw>): int {
    if a.FetchMoreSuccess? then a.payload.limit else 0
  }

  /** The posts the further-page successes of a sequence deliver, in order. */
  function Delivered<Raw, Post>(convert: (seq<Raw>, seq<Raw>) -> seq<Post>, actions: seq<Action<Raw>>): seq<Post>
    decreases |actions|
  {
    if actions == [] then [] else PageOf(convert, actions[0]) + Delivered(convert, actions[1..])
  }

  /** The sum of the limits of the further-page successes of a sequence. */
  function LimitsAdvanced<Raw>(actions: seq<Action<Raw>>): int
    decreases |actions|
  {
    if actions == [] then 0 else AdvanceOf(actions[0]) + LimitsAdvanced(actions[1..])
  }

  /** One action other than a first-page success appends what it delivers and
      moves the cursor by its limit. */
  lemma StepAppendsPage<Raw, Post>(convert: (seq<Raw>, seq<Raw>) -> seq<Post>, s: State<Post>, a: Action<Raw>)
    requires !a.FetchFirstPageSuccess?
    ensures Reducer(convert, s, a).posts == s.posts + PageOf(convert, a)
    ensures Reducer(convert, s, a).skipPosts == s.skipPosts + AdvanceOf(a)
  {
  }

  /** Append-only accumulation: without a reset, any run of actions leaves the
      old posts followed by exactly the delivered posts in arrival order, and
      moves the cursor by exactly the delivered pages' limits. Starts and
      failures in between change neither. */
  lemma {:induction false} ReplayAppendsDelivered<Raw, Post>(convert: (seq<Raw>, seq<Raw>) -> seq<Post>, s: State<Post>, actions: seq<Action<Raw>>)
    requires NoReset(actions)
    ensures Replay(convert, s, actions).posts == s.posts + Delivered(convert, actions)
    ensures Replay(convert, s, actions).skipPosts == s.skipPosts + LimitsAdvanced(actions)
    decreases |actions|
  {
    if actions != [] {
      var rest := actions[1..];
      NoResetTail(actions);
      var s1, page := Reducer(convert, s, actions[0]), PageOf(convert, actions[0]);
      StepAppendsPage(convert, s, actions[0]);
      ReplayAppendsDelivered(convert, s1, rest);
      var r := Replay(convert, s1, rest);
      assert Replay(convert, s, actions) == r;
      assert Delivered(convert, actions) == page + Delivered(convert, rest);
      assert r.posts == s.posts + (page + Delivered(convert, rest));
      assert LimitsAdvanced(actions) == AdvanceOf(actions[0]) + LimitsAdvanced(rest);
    }
  }

  /** Without a reset, the old posts always remain a prefix. */
  lemma {:induction false} ReplayKeepsPrefix<Raw, Post>(convert: (seq<Raw>, seq<Raw>) -> seq<Post>, s: State<Post>, actions: seq<Action<Raw>>)
    requires NoReset(actions)
    ensures s.posts <= Replay(convert, s, actions).posts
  {
    ReplayAppendsDelivered(convert, s, actions);
  }
}
