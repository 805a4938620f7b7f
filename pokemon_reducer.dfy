/** The pagination state machine of the Pokemon hook: the same four actions as
    the posts hook, adapted to an offset/limit API whose responses carry a
    `next` link and the page's results. */
module PokemonReducer {
  import opened Wrappers

  /** A page response: `count`, the `next` and `previous` links (`null` when
      absent) and the page's results. */
  datatype Envelope<T> = Envelope(count: int, next: Option<string>, previous: Option<string>, results: seq<T>)

  /** The hook's state. `skipPokemons` is the offset of the next page request. */
  datatype State<T> = State(
    pokemons: seq<T>,
    isLoading: bool,
    isError: bool,
    skipPokemons: int,
    hasNextPage: bool)

  /** The four action tags; no other tag can be built, so the reducer's
      "unknown action" error cannot arise. */
  datatype Action<T> =
    | FetchStart
    | FetchFirstPageSuccess(payload: Envelope<T>, resetSkipPokemonsTo: int)
    | FetchMoreSuccess(payload: Envelope<T>)
    | FetchFail

  /** `!_.isEmpty(next)`: a `null` link and the empty string both mean "no next page". */
  function HasNextLink(next: Option<string>): (r: bool)
    ensures next.None? ==> !r
    ensures next.Some? ==> (r <==> |next.value| > 0)
  {
    next.Some? && next.value != ""
  }

  function InitialState<T>(firstPagePokemonAmount: int): (s: State<T>)
    ensures s.pokemons == [] && !s.isLoading && !s.isError
    ensures s.skipPokemons == firstPagePokemonAmount && !s.hasNextPage
  {
    State([], false, false, firstPagePokemonAmount, false)
  }

  function Reducer<T>(s: State<T>, a: Action<T>): (r: State<T>)
    // FETCH_START and FETCH_FAIL touch the two flags and nothing else
    ensures (a.FetchStart? || a.FetchFail?) ==>
              r.pokemons == s.pokemons && r.skipPokemons == s.skipPokemons && r.hasNextPage == s.hasNextPage
    ensures a.FetchStart? ==> r.isLoading && !r.isError
    ensures a.FetchFail? ==> !r.isLoading && r.isError
    // a success clears both flags; there is a next page exactly when the response links one
    ensures (a.FetchFirstPageSuccess? || a.FetchMoreSuccess?) ==>
              !r.isLoading && !r.isError &&
              (r.hasNextPage <==> a.payload.next.Some? && |a.payload.next.value| > 0)
    // the first page replaces every field: none depends on s
    ensures a.FetchFirstPageSuccess? ==>
              r.pokemons == a.payload.results && r.skipPokemons == a.resetSkipPokemonsTo
    // a further page appends its results after the old list, and list and offset grow by the same amount
    ensures a.FetchMoreSuccess? ==>
              r.pokemons == s.pokemons + a.payload.results &&
              r.skipPokemons - |r.pokemons| == s.skipPokemons - |s.pokemons|
  {
    match a
    case FetchStart => s.(isLoading := true, isError := false)
    case FetchFirstPageSuccess(p, resetTo) =>
      var pokemons := if |p.results| == 0 then [] else p.results;
      State(pokemons, false, false, resetTo, HasNextLink(p.next))
    case FetchMoreSuccess(p) =>
      s.(pokemons := s.pokemons + p.results, isLoading := false, isError := false,
         skipPokemons := s.skipPokemons + |p.results|, hasNextPage := HasNextLink(p.next))
    case FetchFail => s.(isLoading := false, isError := true)
  }

  /** Applies a sequence of actions in order. */
  function Replay<T>(s: State<T>, actions: seq<Action<T>>): State<T>
    decreases |actions|
  {
    if actions == [] then s else Replay(Reducer(s, actions[0]), actions[1..])
  }

  /** No action in the sequence is a first-page success (the only reset). */
  predicate NoReset<T>(actions: seq<Action<T>>) {
    forall i :: 0 <= i < |actions| ==> !actions[i].FetchFirstPageSuccess?
  }

  /** Dropping the first action keeps a sequence free of resets. */
  lemma NoResetTail<T>(actions: seq<Action<T>>)
    requires actions != [] && NoReset(actions)
    ensures !actions[0].FetchFirstPageSuccess? && NoReset(actions[1..])
  {
  }

  /** The results one action delivers: a further page's, otherwise none. */
  function PageOf<T>(a: Action<T>): seq<T> {
    if a.FetchMoreSuccess? then a.payload.results else []
  }

  /** The results the further-page successes of a sequence deliver, in order. */
  function Delivered<T>(actions: seq<Action<T>>): seq<T>
    decreases |actions|
  {
    if actions == [] then [] else PageOf(actions[0]) + Delivered(actions[1..])
  }

  /** One action other than a first-page success appends what it delivers and
      advances the offset by as many items. */
  lemma StepAppendsPage<T>(s: State<T>, a: Action<T>)
    requires !a.FetchFirstPageSuccess?
    ensures Reducer(s, a).pokemons == s.pokemons + PageOf(a)
    ensures Reducer(s, a).skipPokemons == s.skipPokemons + |PageOf(a)|
  {
  }

  /** Append-only accumulation: without a reset, any run of actions leaves the
      old list followed by exactly the delivered results in arrival order, and
      advances the offset by exactly as many items. */
  lemma {:induction false} ReplayAppendsDelivered<T>(s: State<T>, actions: seq<Action<T>>)
    requires NoReset(actions)
    ensures Replay(s, actions).pokemons == s.pokemons + Delivered(actions)
    ensures Replay(s, actions).skipPokemons == s.skipPokemons + |Delivered(actions)|
    decreases |actions|
  {
    if actions != [] {
      var rest := actions[1..];
      NoResetTail(actions);
      var s1, page := Reducer(s, actions[0]), PageOf(actions[0]);
      StepAppendsPage(s, actions[0]);
      ReplayAppendsDelivered(s1, rest);
      var r := Replay(s1, rest);
      assert Replay(s, actions) == r;
      assert Delivered(actions) == page + Delivered(rest);
      assert r.pokemons == s.pokemons + (page + Delivered(rest));
      assert |page + Delivered(rest)| == |page| + |Delivered(rest)|;
    }
  }

  /** Without a reset, the gap between the offset and the number of items held
      never changes. */
  lemma {:induction false} ReplayKeepsOffsetGap<T>(s: State<T>, actions: seq<Action<T>>)
    requires NoReset(actions)
    ensures Replay(s, actions).skipPokemons - |Replay(s, actions).pokemons| == s.skipPokemons - |s.pokemons|
  {
    ReplayAppendsDelivered(s, actions);
  }

  /** When the first page brings exactly the first-page amount it asked for
      (for a shorter first page see ShortFirstPageLeavesGap),
      the offset equals the number of items held from then on, however many
      further pages, starts and failures follow: each next request starts right
      after the last item shown, with neither gap nor overlap. */
  lemma {:induction false} OffsetCountsHeldItems<T>(s: State<T>, p: Envelope<T>, firstPagePokemonAmount: int, actions: seq<Action<T>>)
    requires |p.results| == firstPagePokemonAmount
    requires NoReset(actions)
    ensures var r := Replay(Reducer(s, FetchFirstPageSuccess(p, firstPagePokemonAmount)), actions);
            r.skipPokemons == |r.pokemons|
  {
    ReplayKeepsOffsetGap(Reducer(s, FetchFirstPageSuccess(p, firstPagePokemonAmount)), actions);
  }

  /** The first page resets the offset to the first-page amount however many
      results came back. A first page holding fewer results leaves a gap the
      size of the shortfall, and no later sequence without a reset closes it:
      the items between the last one shown and the offset are never requested. */
  lemma {:induction false} ShortFirstPageLeavesGap<T>(s: State<T>, p: Envelope<T>, firstPagePokemonAmount: int, actions: seq<Action<T>>)
    requires |p.results| < firstPagePokemonAmount
    requires NoReset(actions)
    ensures var r := Replay(Reducer(s, FetchFirstPageSuccess(p, firstPagePokemonAmount)), actions);
            r.skipPokemons - |r.pokemons| == firstPagePokemonAmount - |p.results| > 0
  {
    ReplayKeepsOffsetGap(Reducer(s, FetchFirstPageSuccess(p, firstPagePokemonAmount)), actions);
  }
}
