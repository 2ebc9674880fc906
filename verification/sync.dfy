/** Properties that hold across the frontend and the backend: the header format, the
    index-based removal on both sides, and what the pages do with the routes' answers. */
module Sync {
  import opened Common
  import opened Strings
  import CollectionRoutes
  import SpotifyRoutes
  import Api
  import CollectionPage
  import SearchPage

  /** For a position inside the list, the page's index filter and the backend's `pop` leave
      the same list. */
  lemma FilterMatchesPop<T>(s: seq<T>, index: int)
    requires 0 <= index < |s|
    ensures CollectionPage.Without(s, index) == CollectionRoutes.Pop(s, index)
  {
    CollectionPage.WithoutInRange(s, index);
  }

  /** The header the client builds from a stored token is read back as that same token by
      both routes, provided the token's own text contains no "Bearer ". */
  lemma ClientHeaderRoundTrip(token: string)
    requires token != "" && !Occurs(token, Bearer)
    ensures var header := Api.AuthorizationHeader(Some(token));
      && CollectionRoutes.GetTokenUser(header) == Some(token)
      && !CollectionRoutes.Rejects(header)
      && SpotifyRoutes.AccessToken(header) == Some(token)
  {
    CollectionRoutes.TokenRoundTrip(token);
  }

  /** The two routes read a header that repeats the scheme as two different tokens: the
      collection routes delete every "Bearer ", the search route only the leading one. */
  lemma RoutesDisagreeOnRepeatedScheme(token: string)
    requires !Occurs(token, Bearer)
    ensures CollectionRoutes.GetTokenUser(Some(Bearer + Bearer + token)) == Some(token)
    ensures SpotifyRoutes.AccessToken(Some(Bearer + Bearer + token)) == Some(Bearer + token)
  {
    var header := Bearer + Bearer + token;
    assert header == Bearer + (Bearer + token);
    assert StartsWith(header, Bearer) by {
      assert header[..|Bearer|] == Bearer;
    }
    RemoveAllLeading(Bearer, Bearer + token);
    RemoveAllLeading(Bearer, token);
    RemoveAllAbsent(token, Bearer);
  }

  /** The search answer as the search page receives it: the albums decoded from JSON, or a
      rejection. A passed-through upstream error or a 500 carries no `error` string. */
  function SearchOutcome(resp: SpotifyRoutes.SearchResponse): (outcome: Outcome<seq<SearchPage.SearchResult>>)
    ensures resp.Albums? <==> outcome.Resolved?
    ensures resp.Albums? ==> outcome.data.Some? && |outcome.data.value| == |resp.albums|
    ensures resp.Albums? ==> forall i :: 0 <= i < |resp.albums| ==>
      outcome.data.value[i] == SearchPage.FromJson(resp.albums[i])
    ensures resp.Unauthenticated? ==> outcome == Rejected(Some(resp.status), Some(resp.error))
  {
    match resp
    case Albums(albums) =>
      Resolved(Some(seq(|albums|, i requires 0 <= i < |albums| => SearchPage.FromJson(albums[i]))))
    case Unauthenticated(status, error) => Rejected(Some(status), Some(error))
    case UpstreamFailure(status) => Rejected(Some(status), None)
    case InternalError => Rejected(Some(500), None)
  }

  /** Results that come from the search route carry no id, so adding any one of them marks
      every result on the page as collected. */
  lemma AddingOneSearchResultMarksAll(authorization: Option<string>, upstream: SpotifyRoutes.Upstream, k: int)
    requires SpotifyRoutes.SearchAlbum(authorization, upstream).Albums?
    requires 0 <= k < |SpotifyRoutes.SearchAlbum(authorization, upstream).albums|
    ensures var results := SearchOutcome(SpotifyRoutes.SearchAlbum(authorization, upstream)).data.value;
      forall i :: 0 <= i < |results| ==> SearchPage.MarkAdded(results, results[k].id)[i].inCollection
  {
  }

  /** Mounting-time load against the store: an accepted header shows exactly the store's list
      for that token; a rejected one shows the 401 error and keeps the page's list. */
  method LoadThroughBackend(store: CollectionRoutes.CollectionStore, page: CollectionPage.Page,
                            authorization: Option<string>)
    modifies page
    ensures !page.loading
    ensures CollectionRoutes.Rejects(authorization) ==>
      page.collection == old(page.collection) && page.error == Some(CollectionRoutes.Unauthorized)
    ensures !CollectionRoutes.Rejects(authorization) ==>
      page.collection == store.Lookup(CollectionRoutes.GetTokenUser(authorization).value) && page.error == None
  {
    var resp := store.GetCollection(authorization);
    page.FetchCollection(Api.Settle(resp));
  }

  /** A removal run against the store keeps a page that showed the store's list in step with
      it: an index inside the list drops the same album on both sides and leaves the page's
      error as it was; any other index changes neither list and shows the 404's text. */
  method RemoveThroughBackend(store: CollectionRoutes.CollectionStore, page: CollectionPage.Page,
                              index: int, authorization: Option<string>)
    requires store.Valid()
    requires !CollectionRoutes.Rejects(authorization) ==>
      page.collection == store.Lookup(CollectionRoutes.GetTokenUser(authorization).value)
    modifies store, page
    ensures store.Valid()
    ensures !CollectionRoutes.Rejects(authorization) ==>
      page.collection == store.Lookup(CollectionRoutes.GetTokenUser(authorization).value)
    ensures !CollectionRoutes.Rejects(authorization) ==>
      var token := CollectionRoutes.GetTokenUser(authorization).value;
      var before := old(store.Lookup(token));
      if 0 <= index < |before| then
        && store.userCollections == old(store.userCollections)[token := CollectionRoutes.Pop(before, index)]
        && page.error == old(page.error)
      else
        && store.userCollections == old(store.userCollections)
        && page.error == Some(CollectionRoutes.IndexOutOfRange)
    ensures CollectionRoutes.Rejects(authorization) ==>
      && page.collection == old(page.collection)
      && page.error == Some(CollectionRoutes.Unauthorized)
      && store.userCollections == old(store.userCollections)
  {
    var resp := store.DeleteFromCollection(index, authorization);
    page.HandleRemove(index, Api.Settle(resp));
  }

  /** An add run against the store: an already-flagged album makes no request and changes no
      list; otherwise an accepted header appends the album and marks the page's matching
      results with no error, since the store never answers "already exists". */
  method AddThroughBackend(store: CollectionRoutes.CollectionStore, page: SearchPage.Page,
                           result: SearchPage.SearchResult, authorization: Option<string>)
    returns (requested: bool)
    requires store.Valid()
    modifies store, page
    ensures store.Valid()
    ensures requested <==> !result.inCollection
    ensures !requested ==> store.userCollections == old(store.userCollections)
    ensures requested && !CollectionRoutes.Rejects(authorization) ==>
      var token := CollectionRoutes.GetTokenUser(authorization).value;
      && store.Lookup(token) == old(store.Lookup(token)) + [result.album]
      && page.results == SearchPage.MarkAdded(old(page.results), result.id)
      && page.error == None
    ensures requested && CollectionRoutes.Rejects(authorization) ==>
      && store.userCollections == old(store.userCollections)
      && page.results == old(page.results)
      && page.error == Some(CollectionRoutes.Unauthorized)
  {
    var outcome: Outcome<CollectionRoutes.Added> := Rejected(None, None);
    if !result.inCollection {
      var resp := store.AddToCollection(result.album, authorization);
      outcome := Api.Settle(resp);
    }
    requested := page.HandleAddToCollection(result, outcome);
  }
}
