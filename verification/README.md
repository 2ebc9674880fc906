# Vinyl collection bookkeeping, modelled in Dafny

This project models the bookkeeping core of a personal vinyl-collection web app. The backend keeps
an in-memory table from a Spotify access token to that token's ordered list of album records. Its
collection routes read the list, append to it and delete from it by index. Its search route projects
Spotify's album search results onto the same album records. The React frontend mirrors these lists:
the collection page loads the list and removes an album optimistically, reverting on failure; the
search page runs searches and marks results as collected after an add; the stacked-sleeve view lays
the albums out.

Modules follow the source files:

- `Common`: the album record, a route's answer (`Response`), and how an awaited request settles
  (`Outcome`).
- `Strings`: Python's `startswith`, `replace(pat, "")` and `removeprefix`.
- `CollectionRoutes`: `endpoints/collection_routes.py`. The class `CollectionStore` holds
  `user_collections` as a `map<string, seq<Album>>` that its route methods update.
- `SpotifyRoutes`: the pure parts of `endpoints/spotify_routes.py`.
- `Api`: the header that `src/api.js` adds, and how a backend answer settles a request.
- `CollectionPage`, `SearchPage`: the two pages as classes whose fields are the React state.
  Each async handler is one sequential step that takes the request's outcome as a parameter.
  `handleRemove` and `handleSearch` are also split at their `await`, so the state shown while
  the request is in flight is stated too.
- `VinylStack`: the sleeve offsets and the scroll hint.
- `Sync`: properties that span frontend and backend.

Properties the model makes explicit:

- The collection routes delete every "Bearer " from the header (`str.replace`). The search route
  deletes only the leading one (`removeprefix`). The two agree on every header the client builds
  from a token that has no "Bearer " in it. They disagree on a header that repeats the scheme
  (`Sync.RoutesDisagreeOnRepeatedScheme`).
- Album records from the search route carry no `id`. The search page marks results by
  `result.id === album.id`, which is then `undefined === undefined`, so adding any one result
  marks every result as collected (`Sync.AddingOneSearchResultMarksAll`).
- With nothing selected, `selectedAlbum?.id === album.id` holds for such an id-less album. The
  selection then becomes the object `{in_collection: true}`, which opens the detail view
  (`SearchPage.IdlessAddOpensDetailView`).
- The store never answers 400. The search page's "already exists" branch is therefore never
  taken against this backend (`Sync.AddThroughBackend`).

## Model

| member | source | states |
|---|---|---|
| `Strings.RemoveAll` | endpoints/collection_routes.py:22 | deleting every occurrence never lengthens the header, and a leading occurrence removes at least its own length |
| `Strings.RemovePrefix` | endpoints/spotify_routes.py:19 | with the prefix present, prefix + result is the input; without it the input is returned unchanged |
| `Strings.RemoveAllAbsent` | endpoints/collection_routes.py:22 | `replace` leaves a string in which the pattern never occurs unchanged |
| `Strings.RemoveAllLeading` | endpoints/collection_routes.py:22 | a leading occurrence is deleted and the scan resumes right after it |
| `CollectionRoutes.GetTokenUser` | endpoints/collection_routes.py:19-22 | no token exactly when the header is absent or does not start with "Bearer "; otherwise a token at least 7 characters shorter than the header |
| `CollectionRoutes.Rejects` | endpoints/collection_routes.py:27-28 | `if not token`: an absent header is rejected, and a header that passes starts with "Bearer " and is longer than it |
| `CollectionRoutes.TokenRoundTrip` | endpoints/collection_routes.py:19-22 | for a token with no "Bearer " in it, "Bearer " + token reads back as that token, and is rejected only when the token is empty |
| `CollectionRoutes.BareSchemeRejected` | endpoints/collection_routes.py:19-29 | the header "Bearer " yields the empty token, which the handlers reject |
| `CollectionRoutes.Pop` | endpoints/collection_routes.py:53 | `pop(index)` leaves one element fewer: those before the index in place, those after shifted down by one, and the same multiset less the removed album |
| `CollectionRoutes.CollectionStore.constructor` | endpoints/collection_routes.py:8 | the table starts empty |
| `CollectionRoutes.CollectionStore.Lookup` | endpoints/collection_routes.py:30 | `user_collections.get(token, [])`: the token's list when it has one, otherwise the empty list |
| `CollectionRoutes.CollectionStore.GetCollection` | endpoints/collection_routes.py:25-30 | 401 for a missing or empty token; otherwise the token's list, or an empty list for an unknown token; nothing is modified |
| `CollectionRoutes.CollectionStore.AddToCollection` | endpoints/collection_routes.py:33-42 | 401 with the table unchanged for a missing or empty token; otherwise the album is appended last with no duplicate check, the total is the old length + 1, every other token's entry is unchanged, and no empty token is ever stored |
| `CollectionRoutes.CollectionStore.DeleteFromCollection` | endpoints/collection_routes.py:45-56 | 401 with the table unchanged for a missing or empty token; for 0 <= index < len the album at index is returned and the token's list becomes its `pop`; any other index gives 404 with every list unchanged |
| `SpotifyRoutes.AccessToken` | endpoints/spotify_routes.py:13-19 | no token exactly when the header is absent or does not start with "Bearer "; otherwise "Bearer " + token is the header, so exactly one leading "Bearer " is removed |
| `SpotifyRoutes.ForwardedHeaderUnchanged` | endpoints/spotify_routes.py:19-22 | the header sent upstream equals the caller's header |
| `SpotifyRoutes.ItemsOf` | endpoints/spotify_routes.py:45 | a missing "albums" or "items" key gives no items; otherwise the listed items |
| `SpotifyRoutes.ProjectItem` | endpoints/spotify_routes.py:38-44 | name, release date and Spotify URL are copied; the artist is the first listed artist; the cover is the first image's URL when there are images, otherwise `None` |
| `SpotifyRoutes.ProjectItems` | endpoints/spotify_routes.py:37-46 | succeeds exactly when every item lists an artist; then one album per item, in the items' order |
| `SpotifyRoutes.SearchAlbum` | endpoints/spotify_routes.py:8-48 | 401 exactly when the bearer check fails, before anything upstream is used; a non-200 upstream status is passed through; an authenticated 200 answers exactly the projection of the upstream items whenever every item lists an artist, and a 500 exactly when one does not |
| `SpotifyRoutes.MissingKeysGiveNoAlbums` | endpoints/spotify_routes.py:45 | a 200 body missing "albums" or "items" yields an empty album list |
| `Api.AuthorizationHeader` | vinyl-collection-ui/src/api.js:11-16 | a header is added exactly when the stored token is truthy, and it is "Bearer " followed by the token |
| `Common.MessageOr` | vinyl-collection-ui/src/pages/CollectionPage.jsx:22 | `error || fallback`: a non-empty error text is shown as is; an absent or empty one gives the fallback; the result is never empty when the fallback is not |
| `Api.Settle` | vinyl-collection-ui/src/api.js:51-61 | a 200 resolves with the body as data; an error status rejects with that status and the body's error text |
| `VinylStack.CalculateOffset` | vinyl-collection-ui/src/components/VinylStack.jsx:5-11 | left is index × 40 and zIndex + index is the total |
| `VinylStack.StackLayout` | vinyl-collection-ui/src/components/VinylStack.jsx:22-23 | one offset per album; every zIndex lies in 1..total; from one album to the next, left rises by 40 and zIndex falls by 1 |
| `VinylStack.EarlierOnTop` | vinyl-collection-ui/src/components/VinylStack.jsx:8-9 | of two albums, the earlier is drawn above and to the left of the later |
| `VinylStack.ShowScrollHint` | vinyl-collection-ui/src/components/VinylStack.jsx:64 | the hint shows exactly when the last sleeve starts at least eight 40-pixel steps in, i.e. when there are more than 8 albums |
| `CollectionPage.Without` | vinyl-collection-ui/src/pages/CollectionPage.jsx:45 | the index filter removes one element for an index inside the list and none otherwise |
| `CollectionPage.WithoutInRange` | vinyl-collection-ui/src/pages/CollectionPage.jsx:45 | for an index inside the list, the filter yields the elements before it followed by those after it |
| `CollectionPage.WithoutOutOfRange` | vinyl-collection-ui/src/pages/CollectionPage.jsx:45 | for a negative or too-large index, the filter yields the list unchanged |
| `CollectionPage.Page.constructor` | vinyl-collection-ui/src/pages/CollectionPage.jsx:9-11 | empty collection, loading, no error |
| `CollectionPage.Page.FetchCollection` | vinyl-collection-ui/src/pages/CollectionPage.jsx:14-30 | loading ends false in every case; success shows the response data (or an empty list) with no error; failure keeps the list and sets the response's error or the default message |
| `CollectionPage.Page.Mount` | vinyl-collection-ui/src/pages/CollectionPage.jsx:32-40 | fetches exactly when a truthy token is stored; without one it sets the login prompt, stops loading and keeps the list |
| `CollectionPage.Page.RemoveOptimistically` | vinyl-collection-ui/src/pages/CollectionPage.jsx:44-46 | the original list is kept and the filtered list is shown before the request |
| `CollectionPage.Page.SettleRemove` | vinyl-collection-ui/src/pages/CollectionPage.jsx:48-56 | success keeps the filtered list and the error; failure restores exactly the original list and sets the error |
| `CollectionPage.Page.HandleRemove` | vinyl-collection-ui/src/pages/CollectionPage.jsx:42-57 | on success with an index inside the list, exactly that album is gone and the order is kept; with an index outside it, nothing changes; on failure the original list is back and the error is set |
| `SearchPage.FromJson` | vinyl-collection-ui/src/pages/SearchPage.jsx:27 | a decoded backend record has no id and is not flagged as collected |
| `SearchPage.IsWhitespace` | vinyl-collection-ui/src/pages/SearchPage.jsx:17 | the characters `trim()` removes include space, tab, newline and carriage return, and never a letter or digit |
| `SearchPage.TrimStart` | vinyl-collection-ui/src/pages/SearchPage.jsx:17 | the result is a suffix of the input, everything dropped is white space, and it does not start with white space |
| `SearchPage.TrimEnd` | vinyl-collection-ui/src/pages/SearchPage.jsx:17 | the result is a prefix of the input, everything dropped is white space, and it does not end with white space |
| `SearchPage.Trim` | vinyl-collection-ui/src/pages/SearchPage.jsx:17 | `trim()` is empty exactly when the input is white space only; otherwise it neither starts nor ends with white space |
| `SearchPage.IsBlank` | vinyl-collection-ui/src/pages/SearchPage.jsx:17 | the query is white space only; the empty query is blank |
| `SearchPage.TrimEmptyIffBlank` | vinyl-collection-ui/src/pages/SearchPage.jsx:17 | `!query.trim()` holds exactly for a blank query |
| `SearchPage.MarkAdded` | vinyl-collection-ui/src/pages/SearchPage.jsx:54-58 | same length and fields; a result ends flagged exactly when it was flagged or its id equals the album's (absent equals absent) |
| `SearchPage.MarkAddedIdempotent` | vinyl-collection-ui/src/pages/SearchPage.jsx:54-58 | marking twice equals marking once |
| `SearchPage.MarkAddedWithoutIds` | vinyl-collection-ui/src/pages/SearchPage.jsx:56 | when no result has an id, marking for an id-less album flags every result |
| `SearchPage.SelectedId` | vinyl-collection-ui/src/pages/SearchPage.jsx:61 | `selectedAlbum?.id`: an id is present only when a result is selected, and it is that result's id |
| `SearchPage.MarkSelection` | vinyl-collection-ui/src/pages/SearchPage.jsx:61-63 | the selection changes only when its id equals the album's; a selected result gets flagged; an empty selection becomes `{in_collection: true}` |
| `SearchPage.IdlessAddOpensDetailView` | vinyl-collection-ui/src/pages/SearchPage.jsx:61-63 | with nothing selected, an id-less add yields `{in_collection: true}`, a truthy selection that opens the detail view |
| `SearchPage.ModalOpen` | vinyl-collection-ui/src/pages/SearchPage.jsx:150 | `isOpen={!!selectedAlbum}`: open for a selected result and for `{in_collection: true}`, closed with nothing selected |
| `SearchPage.IsDuplicateRejection` | vinyl-collection-ui/src/pages/SearchPage.jsx:68 | only a rejection with status 400 can be the "already exists" case; a resolved request never is |
| `SearchPage.Page.constructor` | vinyl-collection-ui/src/pages/SearchPage.jsx:8-13 | empty query and results, not loading, no messages, nothing selected |
| `SearchPage.Page.SetQuery` | vinyl-collection-ui/src/pages/SearchPage.jsx:117 | only the query changes |
| `SearchPage.Page.BeginSearch` | vinyl-collection-ui/src/pages/SearchPage.jsx:15-23 | a blank query changes nothing; otherwise loading starts and results, error, success message and selection are cleared |
| `SearchPage.Page.SettleSearch` | vinyl-collection-ui/src/pages/SearchPage.jsx:25-36 | loading ends false; data is shown, and empty data sets "No albums found"; missing data clears the results and sets the generic failure; a rejection sets its error |
| `SearchPage.Page.HandleSearch` | vinyl-collection-ui/src/pages/SearchPage.jsx:15-37 | a blank query does nothing; otherwise loading ends false, the success message and selection are cleared, and results and error follow the response |
| `SearchPage.Page.HandleAddToCollection` | vinyl-collection-ui/src/pages/SearchPage.jsx:39-82 | a flagged album gets an error, makes no request and leaves the results alone; success and the 400 "already exists" rejection mark the matching results and selection; any other failure only sets its error |
| `Sync.FilterMatchesPop` | vinyl-collection-ui/src/pages/CollectionPage.jsx:45 | for an index inside the list, the page's filter equals the backend's `pop` |
| `Sync.ClientHeaderRoundTrip` | vinyl-collection-ui/src/api.js:13-16 | the header built from a non-empty token with no "Bearer " in it is read back as that token by both routes and accepted |
| `Sync.RoutesDisagreeOnRepeatedScheme` | endpoints/spotify_routes.py:19 | for every token with no "Bearer " in it, "Bearer Bearer " + token is that token to the collection routes and "Bearer " + token to the search route |
| `Sync.SearchOutcome` | vinyl-collection-ui/src/pages/SearchPage.jsx:26-33 | a search answer reaches the page as the decoded albums, one per album and in order, or as a rejection carrying the 401's status and text |
| `Sync.AddingOneSearchResultMarksAll` | vinyl-collection-ui/src/pages/SearchPage.jsx:54-58 | after a search through the backend, adding any one result marks every result as collected |
| `Sync.LoadThroughBackend` | vinyl-collection-ui/src/pages/CollectionPage.jsx:14-29 | loading from the store shows exactly the store's list for an accepted header, and the 401 text otherwise |
| `Sync.RemoveThroughBackend` | vinyl-collection-ui/src/pages/CollectionPage.jsx:42-57 | a page that showed the store's list still shows it after a removal; an index inside the list pops that album from the store and keeps the page's error; any other index leaves the store unchanged and shows "Index out of range" |
| `Sync.AddThroughBackend` | vinyl-collection-ui/src/pages/SearchPage.jsx:39-82 | a flagged album makes no request; otherwise an accepted add appends to the store and marks the page with no error; a rejected one changes neither list |

## Left out

- `main.py`: the OAuth redirect and the token exchange are network calls with no local logic.
- The upstream search request, `query.title()` and the upstream error body are not modelled. The
  upstream answer (status and body) is a parameter of `SpotifyRoutes.SearchAlbum`. A passed-through
  error is modelled by its status alone.
- The `print` of the access token, and `console` logging in the pages, are not modelled.
- `SpotifyRoutes.SearchAlbum`: `item["name"]`, `item["release_date"]`, `item["images"]`,
  `item["artists"][0]["name"]` and `item["external_urls"]["spotify"]` are modelled as always
  present. Each missing key would be a `KeyError` and a 500 that the model does not represent. Only
  an empty artist list is modelled as a 500.
- `Sync.SearchOutcome`: every passed-through upstream status is turned into a rejection. Under the
  client's default status check, a 2xx status other than 200 would resolve with the upstream's JSON
  object as data. The page could not hold that object as a list of results.
- Pydantic validation of the posted album body (a 422 on a malformed body) and its dropping of the
  frontend's extra `id` and `in_collection` fields: the store receives the album record itself.
- Browser storage, routing and the HTTP client's plumbing: the stored token and each request's
  outcome are parameters.
- `left` is modelled as the number of pixels, not as the string "<n>px".
- The modal handlers (`handleAlbumClick`, `handleCloseModal`), the rendering, the animations and
  the three-second `setTimeout` that clears `addSuccess`.
- Concurrency: two requests in flight at once, and the order in which they settle.
- The older pages and components (`pages/Collection.jsx`, `components/Collection.jsx`,
  `components/Search.jsx`) and the presentational components.
