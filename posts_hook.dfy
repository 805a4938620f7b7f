/** The Contentful posts hook (`useFetctPostsWithInfiniteScroll`): the
    reducer state plus the `isFetchingNextPage` guard, driven by the first-page
    fetch, the next-page fetch and the scroll handler. A fetch is two steps:
    its beginning (up to the awaited network call) and its completion. */
module PostsHook {
  import opened Wrappers
  import opened ScrollTrigger
  import opened PostsReducer

  /** The hook's arguments. */
  datatype Config = Config(
    firstPagePostAmount: int,
    nextPagePostAmount: int,
    query: string,
    distanceFromBottomToFetchNextPage: int)

  /** The varying parameters of a Contentful entries request (the fixed part,
      `content_type=post&include=1…&order=-fields.publishDate`, is the same for
      every request). The first page is requested without a skip. */
  datatype Request = Request(query: string, limit: int, skip: Option<int>)

  /** How an awaited request ended: the response data, or a rejection. */
  datatype Outcome<Raw> = Loaded(payload: Envelope<Raw>) | Failed

  /** The hook's state: the reducer state and the guard. */
  datatype Hook<Post> = Hook(state: State<Post>, fetchingNextPage: bool)

  function InitialHook<Post>(c: Config): Hook<Post> {
    Hook(InitialState(c.firstPagePostAmount), false)
  }

  /** The first page: `firstPagePostAmount` posts of the query, no skip. */
  function FirstPageRequest(c: Config): (r: Request)
    ensures r.query == c.query && r.limit == c.firstPagePostAmount && r.skip.None?
  {
    Request(c.query, c.firstPagePostAmount, None)
  }

  /** A next page: `nextPagePostAmount` posts of the query, from the cursor. */
  function NextPageRequest<Post>(c: Config, s: State<Post>): (r: Request)
    ensures r.query == c.query && r.limit == c.nextPagePostAmount && r.skip == Some(s.skipPosts)
  {
    Request(c.query, c.nextPagePostAmount, Some(s.skipPosts))
  }

  /** `findPosts` up to its await: FETCH_START and the first-page request. The
      guard is not involved. */
  function StartFirstPage<Raw, Post>(convert: (seq<Raw>, seq<Raw>) -> seq<Post>, c: Config, h: Hook<Post>): (r: (Hook<Post>, Request))
    ensures r.0.fetchingNextPage == h.fetchingNextPage
    ensures r.0.state.posts == h.state.posts && r.0.state.skipPosts == h.state.skipPosts &&
            r.0.state.hasNextPage == h.state.hasNextPage
    ensures r.0.state.isLoading && !r.0.state.isError
    ensures r.1 == Request(c.query, c.firstPagePostAmount, None)
  {
    (h.(state := Reducer(convert, h.state, FetchStart)), FirstPageRequest(c))
  }

  /** `findPosts` after its await: the first page replaces the state, or the
      failure is recorded; the guard is not involved. */
  function SettleFirstPage<Raw, Post>(convert: (seq<Raw>, seq<Raw>) -> seq<Post>, c: Config, h: Hook<Post>, o: Outcome<Raw>): (r: Hook<Post>)
    ensures r.fetchingNextPage == h.fetchingNextPage
    ensures o.Loaded? ==>
              r.state.posts == (if |o.payload.items| == 0 then [] else ConstructPostData(convert, o.payload)) &&
              r.state.skipPosts == c.firstPagePostAmount &&
              (r.state.hasNextPage <==> NextPage(o.payload.total, o.payload.skip, o.payload.limit)) &&
              !r.state.isLoading && !r.state.isError
    ensures o.Failed? ==>
              r.state.posts == h.state.posts && r.state.skipPosts == h.state.skipPosts &&
              r.state.hasNextPage == h.state.hasNextPage && r.state.isError && !r.state.isLoading
  {
    var a := if o.Loaded? then FetchFirstPageSuccess(o.payload, c.firstPagePostAmount) else FetchFail;
    h.(state := Reducer(convert, h.state, a))
  }

  /** `fetchNextPage` up to its await: the guard is raised, FETCH_START is
      dispatched, and the request asks for `nextPagePostAmount` posts from the
      current cursor. */
  function StartNextPage<Raw, Post>(convert: (seq<Raw>, seq<Raw>) -> seq<Post>, c: Config, h: Hook<Post>): (r: (Hook<Post>, Request))
    ensures r.0.fetchingNextPage
    ensures r.0.state.posts == h.state.posts && r.0.state.hasNextPage == h.state.hasNextPage
    ensures r.0.state.skipPosts == h.state.skipPosts && r.0.state.isLoading && !r.0.state.isError
    ensures r.1 == Request(c.query, c.nextPagePostAmount, Some(h.state.skipPosts))
  {
    (Hook(Reducer(convert, h.state, FetchStart), true), NextPageRequest(c, h.state))
  }

  /** `fetchNextPage` after its await: FETCH_MORE_SUCCESS or FETCH_FAIL, then
      the guard is lowered. */
  function SettleNextPage<Raw, Post>(convert: (seq<Raw>, seq<Raw>) -> seq<Post>, h: Hook<Post>, o: Outcome<Raw>): (r: Hook<Post>)
    ensures !r.fetchingNextPage
    ensures h.state.posts <= r.state.posts
    ensures o.Loaded? ==>
              r.state.posts[|h.state.posts|..] == ConstructPostData(convert, o.payload) &&
              r.state.skipPosts == h.state.skipPosts + o.payload.limit &&
              (r.state.hasNextPage <==> NextPage(o.payload.total, o.payload.skip, o.payload.limit)) &&
              !r.state.isLoading && !r.state.isError
    ensures o.Failed? ==>
              r.state.posts == h.state.posts && r.state.skipPosts == h.state.skipPosts &&
              r.state.hasNextPage == h.state.hasNextPage && r.state.isError && !r.state.isLoading
  {
    var a := if o.Loaded? then FetchMoreSuccess(o.payload) else FetchFail;
    Hook(Reducer(convert, h.state, a), false)
  }

  /** `handleInfiniteScroll`: a request is issued exactly when there is a next
      page, no next-page fetch is in flight and the bottom is within the
      configured distance; otherwise nothing changes. */
  function Scroll<Raw, Post>(convert: (seq<Raw>, seq<Raw>) -> seq<Post>, c: Config, h: Hook<Post>, m: ScrollMetrics): (r: (Hook<Post>, Option<Request>))
    ensures r.1.Some? <==>
              h.state.hasNextPage && !h.fetchingNextPage && ReachedBottom(m, c.distanceFromBottomToFetchNextPage)
    ensures r.1.None? ==> r.0 == h
    // a triggered scroll is exactly fetchNextPage's start: the next-page request
    // at the cursor, the guard raised, FETCH_START and nothing else
    ensures r.1.Some? ==>
              r.1.value == Request(c.query, c.nextPagePostAmount, Some(h.state.skipPosts)) &&
              r.0.fetchingNextPage &&
              r.0.state == h.state.(isLoading := true, isError := false) &&
              (r.0, r.1.value) == StartNextPage(convert, c, h)
  {
    if ShouldFetch(h.state.hasNextPage, h.fetchingNextPage, m, c.distanceFromBottomToFetchNextPage) then
      var (h', req) := StartNextPage(convert, c, h);
      (h', Some(req))
    else
      (h, None)
  }

  /** What the page sees after the first fetch has begun: scroll events, and
      the settlement of the next-page fetch in flight. */
  datatype Event<Raw> = ScrollEvent(metrics: ScrollMetrics) | NextPageSettled(outcome: Outcome<Raw>)

  /** Runs a sequence of events, counting the next-page requests issued and the
      next-page fetches settled. Only a pending fetch can settle, so a
      settlement with none pending does not occur and is skipped. */
  function Run<Raw, Post>(convert: (seq<Raw>, seq<Raw>) -> seq<Post>, c: Config, h: Hook<Post>, events: seq<Event<Raw>>): (r: (Hook<Post>, nat, nat))
    decreases |events|
  {
    if events == [] then (h, 0, 0)
    else
      var (h1, issued1, settled1) :=
        match events[0]
        case ScrollEvent(m) =>
          var (h', req) := Scroll(convert, c, h, m);
          (h', if req.Some? then 1 else 0, 0)
        case NextPageSettled(o) =>
          if h.fetchingNextPage then (SettleNextPage(convert, h, o), 0, 1) else (h, 0, 0);
      var (h2, issued, settled) := Run(convert, c, h1, events[1..]);
      (h2, issued1 + issued, settled1 + settled)
  }

  function Pending<Post>(h: Hook<Post>): nat {
    if h.fetchingNextPage then 1 else 0
  }

  /** Single flight: over any interleaving, what was pending plus what was
      issued equals what settled plus what is pending now. As at most one
      fetch is ever pending, a request is issued only after the previous one
      has settled: issued and settled never differ by more than one. */
  lemma {:induction false} RunIsSingleFlight<Raw, Post>(convert: (seq<Raw>, seq<Raw>) -> seq<Post>, c: Config, h: Hook<Post>, events: seq<Event<Raw>>)
    ensures var (h', issued, settled) := Run(convert, c, h, events);
            Pending(h) + issued == settled + Pending(h')
    ensures var (h', issued, settled) := Run(convert, c, h, events);
            settled <= issued + Pending(h) && issued <= settled + 1
    decreases |events|
  {
    if events != [] {
      var h1 := match events[0]
        case ScrollEvent(m) => Scroll(convert, c, h, m).0
        case NextPageSettled(o) => if h.fetchingNextPage then SettleNextPage(convert, h, o) else h;
      RunIsSingleFlight(convert, c, h1, events[1..]);
    }
  }

  predicate AllScrolls<Raw>(events: seq<Event<Raw>>) {
    forall i :: 0 <= i < |events| ==> events[i].ScrollEvent?
  }

  /** Any number of scroll events while a next-page fetch is in flight issue
      nothing and change nothing. */
  lemma {:induction false} ScrollsWhileInFlight<Raw, Post>(convert: (seq<Raw>, seq<Raw>) -> seq<Post>, c: Config, h: Hook<Post>, events: seq<Event<Raw>>)
    requires h.fetchingNextPage && AllScrolls(events)
    ensures Run(convert, c, h, events) == (h, 0, 0)
    decreases |events|
  {
    if events != [] {
      assert events[0].ScrollEvent?;
      assert AllScrolls(events[1..]) by {
        forall i | 0 <= i < |events| - 1 ensures events[1..][i].ScrollEvent? {
          assert events[1..][i] == events[i + 1];
        }
      }
      ScrollsWhileInFlight(convert, c, h, events[1..]);
    }
  }

  /** Exhaustion stops fetching: once hasNextPage is false with nothing in
      flight, no event sequence (any scroll positions) issues a request or
      changes the state. */
  lemma {:induction false} ExhaustedIssuesNothing<Raw, Post>(convert: (seq<Raw>, seq<Raw>) -> seq<Post>, c: Config, h: Hook<Post>, events: seq<Event<Raw>>)
    requires !h.state.hasNextPage && !h.fetchingNextPage
    ensures Run(convert, c, h, events) == (h, 0, 0)
    decreases |events|
  {
    if events != [] {
      ExhaustedIssuesNothing(convert, c, h, events[1..]);
    }
  }

  /** Before the first page has succeeded, scrolling fetches nothing. */
  lemma {:induction false} NothingBeforeFirstPage<Raw, Post>(convert: (seq<Raw>, seq<Raw>) -> seq<Post>, c: Config, events: seq<Event<Raw>>)
    ensures Run(convert, c, InitialHook<Post>(c), events).1 == 0
  {
    ExhaustedIssuesNothing(convert, c, InitialHook<Post>(c), events);
  }

  /** The hook instance: the reducer state and the `isFetchingNextPage` ref,
      updated in place. */
  class PostsFeed<Raw, Post> {
    const config: Config
    const convert: (seq<Raw>, seq<Raw>) -> seq<Post>
    var state: State<Post>
    var isFetchingNextPage: bool

    function Snapshot(): Hook<Post>
      reads this
    {
      Hook(state, isFetchingNextPage)
    }

    constructor (config: Config, convert: (seq<Raw>, seq<Raw>) -> seq<Post>)
      ensures this.config == config && this.convert == convert
      ensures Snapshot() == InitialHook(config)
      ensures state.posts == [] && state.skipPosts == config.firstPagePostAmount
      ensures !state.hasNextPage && !isFetchingNextPage
    {
      this.config := config;
      this.convert := convert;
      state := InitialState(config.firstPagePostAmount);
      isFetchingNextPage := false;
    }

    method BeginFirstPage() returns (req: Request)
      modifies this`state
      ensures (Snapshot(), req) == StartFirstPage(convert, config, old(Snapshot()))
    {
      state := Reducer(convert, state, FetchStart);
      req := FirstPageRequest(config);
    }

    method CompleteFirstPage(outcome: Outcome<Raw>)
      modifies this`state
      ensures Snapshot() == SettleFirstPage(convert, config, old(Snapshot()), outcome)
    {
      match outcome {
        case Loaded(p) => state := Reducer(convert, state, FetchFirstPageSuccess(p, config.firstPagePostAmount));
        case Failed => state := Reducer(convert, state, FetchFail);
      }
    }

    method BeginFetch() returns (req: Request)
      modifies this
      ensures (Snapshot(), req) == StartNextPage(convert, config, old(Snapshot()))
      ensures isFetchingNextPage
    {
      isFetchingNextPage := true;
      req := NextPageRequest(config, state);
      state := Reducer(convert, state, FetchStart);
    }

    method CompleteFetch(outcome: Outcome<Raw>)
      modifies this
      ensures Snapshot() == SettleNextPage(convert, old(Snapshot()), outcome)
      ensures !isFetchingNextPage && old(state.posts) <= state.posts
    {
      match outcome {
        case Loaded(p) => state := Reducer(convert, state, FetchMoreSuccess(p));
        case Failed => state := Reducer(convert, state, FetchFail);
      }
      isFetchingNextPage := false;
    }

    method OnScroll(metrics: ScrollMetrics) returns (req: Option<Request>)
      modifies this
      ensures (Snapshot(), req) == Scroll(convert, config, old(Snapshot()), metrics)
      ensures old(isFetchingNextPage) || !old(state.hasNextPage) ==> req.None? && unchanged(this)
    {
      if ShouldFetch(state.hasNextPage, isFetchingNextPage, metrics, config.distanceFromBottomToFetchNextPage) {
        var r := BeginFetch();
        req := Some(r);
      } else {
        req := None;
      }
    }
  }
}
