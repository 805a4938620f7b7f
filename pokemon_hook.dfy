/** The Pokemon hook (`useFetchingWithInfiniteScroll`): the reducer state plus
    the `isFetchingNextPage` guard, driven by the first-page fetch, the
    next-page fetch and the scroll handler. A fetch is two steps: its beginning
    (up to the awaited network call) and its completion. */
module PokemonHook {
  import opened Wrappers
  import opened ScrollTrigger
  import opened PokemonReducer

  /** The hook's arguments. */
  datatype Config = Config(
    basePokemonAPI: string,
    firstPagePokemonAmount: int,
    nextPagePokemonAmount: int,
    distanceFromBottomToFetchNextPage: int)

  /** The parameters of `basePokemonAPI?limit=…[&offset=…]`; the first page is
      requested without an offset. */
  datatype Request = Request(base: string, limit: int, offset: Option<int>)

  /** How an awaited request ended: the response data, or a rejection. */
  datatype Outcome<T> = Loaded(payload: Envelope<T>) | Failed

  /** The hook's state: the reducer state and the guard. */
  datatype Hook<T> = Hook(state: State<T>, fetchingNextPage: bool)

  function InitialHook<T>(c: Config): Hook<T> {
    Hook(InitialState(c.firstPagePokemonAmount), false)
  }

  /** The first page: `basePokemonAPI?limit=firstPagePokemonAmount`. */
  function FirstPageRequest(c: Config): (r: Request)
    ensures r.base == c.basePokemonAPI && r.limit == c.firstPagePokemonAmount && r.offset.None?
  {
    Request(c.basePokemonAPI, c.firstPagePokemonAmount, None)
  }

  /** A next page: `basePokemonAPI?limit=nextPagePokemonAmount&offset=skipPokemons`. */
  function NextPageRequest<T>(c: Config, s: State<T>): (r: Request)
    ensures r.base == c.basePokemonAPI && r.limit == c.nextPagePokemonAmount && r.offset == Some(s.skipPokemons)
  {
    Request(c.basePokemonAPI, c.nextPagePokemonAmount, Some(s.skipPokemons))
  }

  /** `fetchFirstPage` up to its await: FETCH_START and the first-page
      request. The guard is not involved. */
  function StartFirstPage<T>(c: Config, h: Hook<T>): (r: (Hook<T>, Request))
    ensures r.0.fetchingNextPage == h.fetchingNextPage
    ensures r.0.state.pokemons == h.state.pokemons && r.0.state.skipPokemons == h.state.skipPokemons &&
            r.0.state.hasNextPage == h.state.hasNextPage
    ensures r.0.state.isLoading && !r.0.state.isError
    ensures r.1 == Request(c.basePokemonAPI, c.firstPagePokemonAmount, None)
  {
    (h.(state := Reducer(h.state, FetchStart)), FirstPageRequest(c))
  }

  /** `fetchFirstPage` after its await: the first page replaces the state, or
      the failure is recorded; the guard is not involved. */
  function SettleFirstPage<T>(c: Config, h: Hook<T>, o: Outcome<T>): (r: Hook<T>)
    ensures r.fetchingNextPage == h.fetchingNextPage
    ensures o.Loaded? ==>
              r.state.pokemons == o.payload.results &&
              r.state.skipPokemons == c.firstPagePokemonAmount &&
              (r.state.hasNextPage <==> HasNextLink(o.payload.next)) &&
              !r.state.isLoading && !r.state.isError
    ensures o.Failed? ==>
              r.state.pokemons == h.state.pokemons && r.state.skipPokemons == h.state.skipPokemons &&
              r.state.hasNextPage == h.state.hasNextPage && r.state.isError && !r.state.isLoading
  {
    var a := if o.Loaded? then FetchFirstPageSuccess(o.payload, c.firstPagePokemonAmount) else FetchFail;
    h.(state := Reducer(h.state, a))
  }

  /** `fetchNextPage` up to its await: the guard is raised, FETCH_START is
      dispatched, and the request asks for `nextPagePokemonAmount` items from
      the current offset. */
  function StartNextPage<T>(c: Config, h: Hook<T>): (r: (Hook<T>, Request))
    ensures r.0.fetchingNextPage
    ensures r.0.state.pokemons == h.state.pokemons && r.0.state.hasNextPage == h.state.hasNextPage
    ensures r.0.state.skipPokemons == h.state.skipPokemons && r.0.state.isLoading && !r.0.state.isError
    ensures r.1 == Request(c.basePokemonAPI, c.nextPagePokemonAmount, Some(h.state.skipPokemons))
  {
    (Hook(Reducer(h.state, FetchStart), true), NextPageRequest(c, h.state))
  }

  /** `fetchNextPage` after its await: FETCH_MORE_SUCCESS or FETCH_FAIL, then
      the guard is lowered. */
  function SettleNextPage<T>(h: Hook<T>, o: Outcome<T>): (r: Hook<T>)
    ensures !r.fetchingNextPage
    ensures h.state.pokemons <= r.state.pokemons
    ensures o.Loaded? ==>
              r.state.pokemons[|h.state.pokemons|..] == o.payload.results &&
              r.state.skipPokemons == h.state.skipPokemons + |o.payload.results| &&
              (r.state.hasNextPage <==> HasNextLink(o.payload.next)) &&
              !r.state.isLoading && !r.state.isError
    ensures o.Failed? ==>
              r.state.pokemons == h.state.pokemons && r.state.skipPokemons == h.state.skipPokemons &&
              r.state.hasNextPage == h.state.hasNextPage && r.state.isError && !r.state.isLoading
  {
    var a := if o.Loaded? then FetchMoreSuccess(o.payload) else FetchFail;
    Hook(Reducer(h.state, a), false)
  }

  /** `handleInfiniteScroll`: a request is issued exactly when there is a next
      page, no next-page fetch is in flight and the bottom is within the
      configured distance; otherwise nothing changes. */
  function Scroll<T>(c: Config, h: Hook<T>, m: ScrollMetrics): (r: (Hook<T>, Option<Request>))
    ensures r.1.Some? <==>
              h.state.hasNextPage && !h.fetchingNextPage && ReachedBottom(m, c.distanceFromBottomToFetchNextPage)
    ensures r.1.None? ==> r.0 == h
    // a triggered scroll is exactly fetchNextPage's start: the next-page request
    // at the offset, the guard raised, FETCH_START and nothing else
    ensures r.1.Some? ==>
              r.1.value == Request(c.basePokemonAPI, c.nextPagePokemonAmount, Some(h.state.skipPokemons)) &&
              r.0.fetchingNextPage &&
              r.0.state == h.state.(isLoading := true, isError := false) &&
              (r.0, r.1.value) == StartNextPage(c, h)
  {
    if ShouldFetch(h.state.hasNextPage, h.fetchingNextPage, m, c.distanceFromBottomToFetchNextPage) then
      var (h', req) := StartNextPage(c, h);
      (h', Some(req))
    else
      (h, None)
  }

  /** What the page sees after the first fetch has begun: scroll events, and
      the settlement of the next-page fetch in flight. */
  datatype Event<T> = ScrollEvent(metrics: ScrollMetrics) | NextPageSettled(outcome: Outcome<T>)

  /** Runs a sequence of events, counting the next-page requests issued and the
      next-page fetches settled. Only a pending fetch can settle, so a
      settlement with none pending does not occur and is skipped. */
  function Run<T>(c: Config, h: Hook<T>, events: seq<Event<T>>): (r: (Hook<T>, nat, nat))
    decreases |events|
  {
    if events == [] then (h, 0, 0)
    else
      var (h1, issued1, settled1) :=
        match events[0]
        case ScrollEvent(m) =>
          var (h', req) := Scroll(c, h, m);
          (h', if req.Some? then 1 else 0, 0)
        case NextPageSettled(o) =>
          if h.fetchingNextPage then (SettleNextPage(h, o), 0, 1) else (h, 0, 0);
      var (h2, issued, settled) := Run(c, h1, events[1..]);
      (h2, issued1 + issued, settled1 + settled)
  }

  function Pending<T>(h: Hook<T>): nat {
    if h.fetchingNextPage then 1 else 0
  }

  /** Single flight: over any interleaving, what was pending plus what was
      issued equals what settled plus what is pending now. As at most one
      fetch is ever pending, a request is issued only after the previous one
      has settled: issued and settled never differ by more than one. */
  lemma {:induction false} RunIsSingleFlight<T>(c: Config, h: Hook<T>, events: seq<Event<T>>)
    ensures var (h', issued, settled) := Run(c, h, events);
            Pending(h) + issued == settled + Pending(h')
    ensures var (h', issued, settled) := Run(c, h, events);
            settled <= issued + Pending(h) && issued <= settled + 1
    decreases |events|
  {
    if events != [] {
      var h1 := match events[0]
        case ScrollEvent(m) => Scroll(c, h, m).0
        case NextPageSettled(o) => if h.fetchingNextPage then SettleNextPage(h, o) else h;
      RunIsSingleFlight(c, h1, events[1..]);
    }
  }

  predicate AllScrolls<T>(events: seq<Event<T>>) {
    forall i :: 0 <= i < |events| ==> events[i].ScrollEvent?
  }

  /** Any number of scroll events while a next-page fetch is in flight issue
      nothing and change nothing. */
  lemma {:induction false} ScrollsWhileInFlight<T>(c: Config, h: Hook<T>, events: seq<Event<T>>)
    requires h.fetchingNextPage && AllScrolls(events)
    ensures Run(c, h, events) == (h, 0, 0)
    decreases |events|
  {
    if events != [] {
      assert events[0].ScrollEvent?;
      assert AllScrolls(events[1..]) by {
        forall i | 0 <= i < |events| - 1 ensures events[1..][i].ScrollEvent? {
          assert events[1..][i] == events[i + 1];
        }
      }
      ScrollsWhileInFlight(c, h, events[1..]);
    }
  }

  /** Exhaustion stops fetching: once hasNextPage is false with nothing in
      flight, no event sequence (any scroll positions) issues a request or
      changes the state. */
  lemma {:induction false} ExhaustedIssuesNothing<T>(c: Config, h: Hook<T>, events: seq<Event<T>>)
    requires !h.state.hasNextPage && !h.fetchingNextPage
    ensures Run(c, h, events) == (h, 0, 0)
    decreases |events|
  {
    if events != [] {
      ExhaustedIssuesNothing(c, h, events[1..]);
    }
  }

  /** Before the first page has succeeded, scrolling fetches nothing. */
  lemma {:induction false} NothingBeforeFirstPage<T>(c: Config, events: seq<Event<T>>)
    ensures Run(c, InitialHook<T>(c), events).1 == 0
  {
    ExhaustedIssuesNothing(c, InitialHook<T>(c), events);
  }

  /** The hook instance: the reducer state and the `isFetchingNextPage` ref,
      updated in place. */
  class PokemonFeed<T> {
    const config: Config
    var state: State<T>
    var isFetchingNextPage: bool

    function Snapshot(): Hook<T>
      reads this
    {
      Hook(state, isFetchingNextPage)
    }

    constructor (config: Config)
      ensures this.config == config
      ensures Snapshot() == InitialHook(config)
      ensures state.pokemons == [] && state.skipPokemons == config.firstPagePokemonAmount
      ensures !state.hasNextPage && !isFetchingNextPage
    {
      this.config := config;
      state := InitialState(config.firstPagePokemonAmount);
      isFetchingNextPage := false;
    }

    method BeginFirstPage() returns (req: Request)
      modifies this`state
      ensures (Snapshot(), req) == StartFirstPage(config, old(Snapshot()))
    {
      state := Reducer(state, FetchStart);
      req := FirstPageRequest(config);
    }

    method CompleteFirstPage(outcome: Outcome<T>)
      modifies this`state
      ensures Snapshot() == SettleFirstPage(config, old(Snapshot()), outcome)
    {
      match outcome {
        case Loaded(p) => state := Reducer(state, FetchFirstPageSuccess(p, config.firstPagePokemonAmount));
        case Failed => state := Reducer(state, FetchFail);
      }
    }

    method BeginFetch() returns (req: Request)
      modifies this
      ensures (Snapshot(), req) == StartNextPage(config, old(Snapshot()))
      ensures isFetchingNextPage
    {
      isFetchingNextPage := true;
      req := NextPageRequest(config, state);
      state := Reducer(state, FetchStart);
    }

    method CompleteFetch(outcome: Outcome<T>)
      modifies this
      ensures Snapshot() == SettleNextPage(old(Snapshot()), outcome)
      ensures !isFetchingNextPage && old(state.pokemons) <= state.pokemons
    {
      match outcome {
        case Loaded(p) => state := Reducer(state, FetchMoreSuccess(p));
        case Failed => state := Reducer(state, FetchFail);
      }
      isFetchingNextPage := false;
    }

    method OnScroll(metrics: ScrollMetrics) returns (req: Option<Request>)
      modifies this
      ensures (Snapshot(), req) == Scroll(config, old(Snapshot()), metrics)
      ensures old(isFetchingNextPage) || !old(state.hasNextPage) ==> req.None? && unchanged(this)
    {
      if ShouldFetch(state.hasNextPage, isFetchingNextPage, metrics, config.distanceFromBottomToFetchNextPage) {
        var r := BeginFetch();
        req := Some(r);
      } else {
        req := None;
      }
    }
  }

  /** The gallery's own use of the hook (first page 20, next pages 5, bottom
      distance 0): a first page of 20 with a next link, a scroll to the
      bottom, a page of 5 without a next link, and a second scroll. */
  method GalleryScenario(names: seq<string>) returns (first: Option<Request>, second: Option<Request>, shown: nat)
    requires |names| == 25
    ensures first == Some(Request("https://pokeapi.co/api/v2/pokemon", 5, Some(20)))
    ensures second == None
    ensures shown == 25
  {
    var base := "https://pokeapi.co/api/v2/pokemon";
    var feed := new PokemonFeed<string>(Config(base, 20, 5, 0));
    var _ := feed.BeginFirstPage();
    feed.CompleteFirstPage(Loaded(Envelope(25, Some(base + "?offset=20&limit=20"), None, names[..20])));
    var bottom := ScrollMetrics(1000, 1000, 1000, 1000, 1000, 600, 400);
    first := feed.OnScroll(bottom);
    feed.CompleteFetch(Loaded(Envelope(25, None, Some(base + "?offset=15&limit=5"), names[20..])));
    second := feed.OnScroll(bottom);
    shown := |feed.state.pokemons|;
  }
}
