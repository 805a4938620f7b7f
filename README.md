# Infinite-scroll pagination hooks, modelled in Dafny

The repository provides two React hooks that load a list page by page and
fetch the next page when the user scrolls near the bottom of the document:
`useFetctPostsWithInfiniteScroll` for Contentful blog posts
(`src/useFetchWithInfiniteScroll.js`) and `useFetchingWithInfiniteScroll`
for a Pokemon listing (`src/useFetchingWithInfiniteScroll.js`). Each hook
has a reducer over four actions (`FETCH_START`, `FETCH_FIRST_PAGE_SUCCESS`,
`FETCH_MORE_SUCCESS`, `FETCH_FAIL`) and a mutable `isFetchingNextPage` ref
that keeps a second next-page fetch from starting while one is awaited.

This project models both hooks:

- `scroll_trigger.dfy` (`ScrollTrigger`): the document height as the
  maximum of six DOM heights and the bottom-distance test. Both source files
  contain the same lines for this, so it is written once.
- `posts_reducer.dfy` (`PostsReducer`) and `pokemon_reducer.dfy`
  (`PokemonReducer`): the state records, the actions and the reducers as pure
  functions, plus `Replay` over a sequence of actions.
- `posts_hook.dfy` (`PostsHook`) and `pokemon_hook.dfy` (`PokemonHook`):
  each hook's body. A fetch is split into its start (up to the awaited
  request) and its settlement. Pure step functions over
  `Hook(state, fetchingNextPage)` specify these steps. A class
  (`PostsFeed`, `PokemonFeed`) holds the reducer state and the guard as
  fields, and its methods `BeginFirstPage`, `CompleteFirstPage`, `BeginFetch`,
  `CompleteFetch` and `OnScroll` are proved to match the step functions.
  `Run` plays an interleaving of scroll events and fetch settlements.
- `wrappers.dfy` (`Wrappers`): `Option`.

The network, the DOM and React are inputs: a request is returned as a
`Request` value, its result comes back as an `Outcome` (`Loaded(payload)` or
`Failed`), and a scroll event carries its seven measurements as integers.
The Contentful converter `convertContentfulEntryResponse` lives in
`../utils/contentful`, which is not part of this model. It is therefore a
function parameter `convert(items, assets ++ entries)`; `ConstructPostData`
applies it exactly as `constructPostData` does.

Changing `query` or `firstPagePostAmount` (or, for Pokemon, `basePokemonAPI`
or `firstPagePokemonAmount`) re-runs the first-page fetch without resetting
the state; only a successful first page replaces it. The first-page fetch
never touches the guard. Accordingly, `StartFirstPage` and `SettleFirstPage`
leave `fetchingNextPage` as it was, and only `FetchFirstPageSuccess` resets
the list and the cursor.

## Model

| member | source | states |
|---|---|---|
| ScrollTrigger.MaxOf | src/useFetchWithInfiniteScroll.js:170-177 | `Math.max` of the heights is one of them and is at least every one of them |
| ScrollTrigger.ReachedBottom | src/useFetchWithInfiniteScroll.js:170-183 | `clientHeight + pageYOffset >= max(six heights) - distance` holds exactly when each of the six heights is within `distance` of the viewport's lower edge (same lines in src/useFetchingWithInfiniteScroll.js:131-145) |
| ScrollTrigger.ScrollHeight | src/useFetchWithInfiniteScroll.js:170-177 | the document height is one of the six measurements and at least every one of them |
| ScrollTrigger.ShouldFetch | src/useFetchWithInfiniteScroll.js:179-184 | no fetch without a next page, none while the guard is set; with a next page and the guard clear, a fetch exactly when the bottom test holds |
| PostsReducer.Reducer | src/useFetchWithInfiniteScroll.js:12-86 | FETCH_START/FETCH_FAIL change only the two flags (loading on and error off, or loading off and error on). Both successes clear the flags and set hasNextPage exactly when `total > skip + limit`. The first page sets skipPosts to `resetSkipPostsTo` and posts to `[]` when `items` is empty, otherwise to the converted posts, with no field taken from the old state. A further page keeps the old posts as a prefix, appends exactly the converted posts and adds the payload's limit to skipPosts |
| PostsReducer.NextPage | src/useFetchWithInfiniteScroll.js:12-14 | true exactly when more posts follow the skipped ones than the page's limit, i.e. `total > skip + limit` |
| PostsReducer.ConstructPostData | src/useFetchWithInfiniteScroll.js:27-33 | the converter receives the page's items and the included assets followed by the included entries |
| PostsReducer.InitialState | src/useFetchWithInfiniteScroll.js:107-113 | no posts, both flags false, skipPosts = `firstPagePostAmount`, hasNextPage false |
| PostsReducer.MoreSuccessCursorBelowTotal | src/useFetchWithInfiniteScroll.js:12-14 | when the response echoes the request's skip, hasNextPage after a further page holds exactly when the advanced skipPosts is below `total` |
| PostsReducer.FirstPageCursorBelowTotal | src/useFetchWithInfiniteScroll.js:51-65 | for a first page requested with the first-page amount and no skip, hasNextPage holds exactly when the reset skipPosts is below `total` |
| PostsReducer.ReplayAppendsDelivered | src/useFetchWithInfiniteScroll.js:67-80 | over any action sequence without a first-page success, the posts become the old posts followed by every delivered page's posts in order, and skipPosts grows by the sum of their limits |
| PostsReducer.ReplayKeepsPrefix | src/useFetchWithInfiniteScroll.js:74 | without a reset, the old posts remain a prefix after any action sequence |
| PostsHook.StartFirstPage | src/useFetchWithInfiniteScroll.js:117-123 | starting the first page sets loading and clears the error, leaves posts, skipPosts, hasNextPage and the guard unchanged, and requests `firstPagePostAmount` posts of the query with no skip |
| PostsHook.FirstPageRequest | src/useFetchWithInfiniteScroll.js:117-120 | the first-page request carries the query, `limit = firstPagePostAmount` and no skip |
| PostsHook.NextPageRequest | src/useFetchWithInfiniteScroll.js:142-145 | the next-page request carries the query, `limit = nextPagePostAmount` and `skip = skipPosts` |
| PostsHook.SettleFirstPage | src/useFetchWithInfiniteScroll.js:124-134 | on success: posts are `[]` when the page has no items and the converted posts otherwise, skipPosts is `firstPagePostAmount`, hasNextPage is `NextPage(total, skip, limit)` and both flags are cleared. On failure: posts, skipPosts and hasNextPage are unchanged, the error is set and loading cleared. The guard is untouched either way |
| PostsHook.StartNextPage | src/useFetchWithInfiniteScroll.js:142-149 | raises the guard, sets loading and clears the error, keeps posts, skipPosts and hasNextPage, and requests `nextPagePostAmount` posts at skip `skipPosts` |
| PostsHook.SettleNextPage | src/useFetchWithInfiniteScroll.js:150-165 | lowers the guard and keeps the old posts as a prefix. On success: the new tail is the converted page, skipPosts grows by the payload's limit, hasNextPage is `NextPage(total, skip, limit)` and both flags are cleared. On failure: posts, skipPosts and hasNextPage are unchanged, the error is set and loading cleared |
| PostsHook.Scroll | src/useFetchWithInfiniteScroll.js:167-187 | a request is issued exactly when hasNextPage, the guard is clear and `ReachedBottom` holds. A triggered scroll is StartNextPage: it requests `nextPagePostAmount` posts of the query at skip `skipPosts`, raises the guard, sets loading and clears the error, and keeps posts, skipPosts and hasNextPage. Otherwise the hook is unchanged |
| PostsHook.RunIsSingleFlight | src/useFetchWithInfiniteScroll.js:147-187 | over any interleaving of scrolls and settlements, pending-before plus issued equals settled plus pending-after, so issued never exceeds settled by more than one |
| PostsHook.ScrollsWhileInFlight | src/useFetchWithInfiniteScroll.js:179-185 | any number of scroll events while a next-page fetch is in flight issue nothing and change nothing |
| PostsHook.ExhaustedIssuesNothing | src/useFetchWithInfiniteScroll.js:180 | with hasNextPage false and nothing in flight, no event sequence issues a request or changes the hook |
| PostsHook.NothingBeforeFirstPage | src/useFetchWithInfiniteScroll.js:107-113 | from the initial state (empty posts, skipPosts = first-page amount, hasNextPage false) no event sequence issues a next-page request |
| PostsHook.PostsFeed.constructor | src/useFetchWithInfiniteScroll.js:106-113 | the initial state: no posts, both flags false, skipPosts = `firstPagePostAmount`, hasNextPage false, guard clear |
| PostsHook.PostsFeed.BeginFirstPage | src/useFetchWithInfiniteScroll.js:122-123 | updates the state as StartFirstPage does and returns its request; the guard field is outside its frame |
| PostsHook.PostsFeed.CompleteFirstPage | src/useFetchWithInfiniteScroll.js:124-134 | updates the state as SettleFirstPage does; the guard field is outside its frame |
| PostsHook.PostsFeed.BeginFetch | src/useFetchWithInfiniteScroll.js:147-149 | sets the guard and dispatches FETCH_START as StartNextPage does, returning the next-page request |
| PostsHook.PostsFeed.CompleteFetch | src/useFetchWithInfiniteScroll.js:150-165 | dispatches the success or failure as SettleNextPage does and clears the guard; the old posts remain a prefix |
| PostsHook.PostsFeed.OnScroll | src/useFetchWithInfiniteScroll.js:167-187 | behaves as Scroll; while the guard is set or hasNextPage is false it issues nothing and changes nothing |
| PokemonReducer.Reducer | src/useFetchingWithInfiniteScroll.js:17-56 | FETCH_START/FETCH_FAIL change only the two flags. Both successes clear the flags and set hasNextPage exactly when `next` is a non-empty string. The first page sets the list to `results` and skipPokemons to `resetSkipPokemonsTo`. A further page keeps the old list as a prefix, appends exactly `results`, and keeps `skipPokemons - length` unchanged |
| PokemonReducer.HasNextLink | src/useFetchingWithInfiniteScroll.js:34 | a missing `next` link means no next page; a present one means a next page exactly when it is non-empty |
| PokemonReducer.InitialState | src/useFetchingWithInfiniteScroll.js:76-82 | empty list, both flags false, skipPokemons = `firstPagePokemonAmount`, hasNextPage false |
| PokemonReducer.ReplayAppendsDelivered | src/useFetchingWithInfiniteScroll.js:37-50 | over any action sequence without a first-page success, the list becomes the old list followed by every delivered page's results in order, and skipPokemons grows by their total length |
| PokemonReducer.ReplayKeepsOffsetGap | src/useFetchingWithInfiniteScroll.js:44-47 | without a reset, `skipPokemons - length` is the same after any action sequence |
| PokemonReducer.OffsetCountsHeldItems | src/useFetchingWithInfiniteScroll.js:21-50 | after a first page holding exactly the first-page amount, the offset equals the number of held items through any later sequence without a reset |
| PokemonReducer.ShortFirstPageLeavesGap | src/useFetchingWithInfiniteScroll.js:33 | a first page with fewer results than the first-page amount leaves the offset ahead of the held items by the shortfall, through any later sequence without a reset |
| PokemonHook.StartFirstPage | src/useFetchingWithInfiniteScroll.js:86-89 | starting the first page sets loading and clears the error, leaves the list, skipPokemons, hasNextPage and the guard unchanged, and requests `basePokemonAPI?limit=firstPagePokemonAmount` with no offset |
| PokemonHook.FirstPageRequest | src/useFetchingWithInfiniteScroll.js:86 | the first-page request carries the base URL, `limit = firstPagePokemonAmount` and no offset |
| PokemonHook.NextPageRequest | src/useFetchingWithInfiniteScroll.js:108-110 | the next-page request carries the base URL, `limit = nextPagePokemonAmount` and `offset = skipPokemons` |
| PokemonHook.SettleFirstPage | src/useFetchingWithInfiniteScroll.js:90-100 | on success: the list is the results, the offset is `firstPagePokemonAmount`, hasNextPage is `HasNextLink(next)` and both flags are cleared. On failure: list, offset and hasNextPage are unchanged, the error is set and loading cleared. The guard is untouched either way |
| PokemonHook.StartNextPage | src/useFetchingWithInfiniteScroll.js:108-114 | raises the guard, sets loading and clears the error, keeps list, offset and hasNextPage, and requests `limit = nextPagePokemonAmount`, `offset = skipPokemons` |
| PokemonHook.SettleNextPage | src/useFetchingWithInfiniteScroll.js:115-126 | lowers the guard and keeps the old list as a prefix. On success: the new tail is `results`, the offset grows by its length, hasNextPage is `HasNextLink(next)` and both flags are cleared. On failure: list, offset and hasNextPage are unchanged, the error is set and loading cleared |
| PokemonHook.Scroll | src/useFetchingWithInfiniteScroll.js:128-148 | a request is issued exactly when hasNextPage, the guard is clear and `ReachedBottom` holds. A triggered scroll is StartNextPage: it requests `basePokemonAPI?limit=nextPagePokemonAmount&offset=skipPokemons`, raises the guard, sets loading and clears the error, and keeps the list, skipPokemons and hasNextPage. Otherwise the hook is unchanged |
| PokemonHook.RunIsSingleFlight | src/useFetchingWithInfiniteScroll.js:112-148 | over any interleaving of scrolls and settlements, pending-before plus issued equals settled plus pending-after, so issued never exceeds settled by more than one |
| PokemonHook.ScrollsWhileInFlight | src/useFetchingWithInfiniteScroll.js:140-146 | any number of scroll events while a next-page fetch is in flight issue nothing and change nothing |
| PokemonHook.ExhaustedIssuesNothing | src/useFetchingWithInfiniteScroll.js:141 | with hasNextPage false and nothing in flight, no event sequence issues a request or changes the hook |
| PokemonHook.NothingBeforeFirstPage | src/useFetchingWithInfiniteScroll.js:76-82 | from the initial state (hasNextPage false) no event sequence issues a next-page request |
| PokemonHook.PokemonFeed.constructor | src/useFetchingWithInfiniteScroll.js:75-82 | the initial state: empty list, both flags false, skipPokemons = `firstPagePokemonAmount`, hasNextPage false, guard clear |
| PokemonHook.PokemonFeed.BeginFirstPage | src/useFetchingWithInfiniteScroll.js:88-89 | updates the state as StartFirstPage does and returns its request; the guard field is outside its frame |
| PokemonHook.PokemonFeed.CompleteFirstPage | src/useFetchingWithInfiniteScroll.js:90-100 | updates the state as SettleFirstPage does; the guard field is outside its frame |
| PokemonHook.PokemonFeed.BeginFetch | src/useFetchingWithInfiniteScroll.js:112-114 | sets the guard and dispatches FETCH_START as StartNextPage does, returning the next-page request |
| PokemonHook.PokemonFeed.CompleteFetch | src/useFetchingWithInfiniteScroll.js:115-126 | dispatches the success or failure as SettleNextPage does and clears the guard; the old list remains a prefix |
| PokemonHook.PokemonFeed.OnScroll | src/useFetchingWithInfiniteScroll.js:128-148 | behaves as Scroll; while the guard is set or hasNextPage is false it issues nothing and changes nothing |
| PokemonHook.GalleryScenario | src/App.js:7-11 | with the gallery's configuration (20, then 5), a 20-item first page with a next link and a scroll to the bottom request offset 20, limit 5. A 5-item page without a next link then leaves 25 items, and a further scroll requests nothing |

## Left out

- Network calls (`axios.get`) and the `_.get(response, 'data', {})` extraction: a response is an already-typed `Envelope`, and a rejection is `Failed`.
- Request URL text: a request is modelled by its varying parameters (query filter or base URL, limit, skip/offset). The fixed Contentful parameters and `CONTENTFUL_REST_URL` are not modelled.
- `convertContentfulEntryResponse` (`../utils/contentful`) is not part of this model; it is the function parameter `convert`.
- React machinery: `useReducer` scheduling, `useEffect` re-runs on dependency changes, and the adding and removing of window scroll listeners. The model assumes that the scroll handler always sees the current `hasNextPage` and cursor.
- Scroll: the handler attached to the window is a closure over the state of the render that attached it. `fetchNextPage` dispatches FETCH_MORE_SUCCESS and then clears the guard (src/useFetchWithInfiniteScroll.js:152-164, src/useFetchingWithInfiniteScroll.js:117-125). The effect that re-attaches the handler with the new `hasNextPage` and cursor runs only after React re-renders. A scroll event between the guard being cleared and that re-run sees the old closure, so it can request the page just received again, or fetch after the last page. The model does not capture this window. `Scroll`'s request at the current cursor, `ExhaustedIssuesNothing` and `RunIsSingleFlight` hold under the assumption above; the guard alone does not exclude such a repeated request.
- `console.log` in the failure paths.
- Concurrency: each fetch is two steps, start and settlement. `Run` covers next-page settlements only; a first-page fetch settling while a next-page fetch is pending is outside `Run`, though the class methods allow it.
- Reconfiguration (a new query or first-page amount re-running the first-page effect) and stale results: the code neither resets on reconfiguration nor cancels stale fetches, so neither is claimed. The configuration is fixed per `PostsFeed`/`PokemonFeed` object.
- Floating-point and `Number(...)` coercions: all measurements, `distanceFromBottomToFetchNextPage` and `limit` are integers.
- The reducers' "unknown action" error: the action datatypes have only the four tags, so it cannot arise.
- Missing payload fields (`_.isEmpty` on `undefined` items or results): envelopes always carry their lists. For the Pokemon variant, `_.isEmpty(results) ? [] : results` is then plain `results`.
- `src/App.js` rendering and `src/Pokemon.js` (a per-item detail fetch) are not modelled, except the hook configuration used in `GalleryScenario`.
