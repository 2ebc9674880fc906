/** The backend's search route: the bearer check, and the projection of the upstream
    album search results onto album records. The upstream request itself is a parameter. */
module SpotifyRoutes {
  import opened Common
  import opened Strings

  const NotAuthenticated := "Not authenticated — missing or invalid access token."

  datatype Artist = Artist(name: string)
  datatype Image = Image(url: string)

  /** One upstream album item, with the fields the projection reads
      (`external_urls.spotify` is `spotifyUrl`). */
  datatype Item = Item(name: string, artists: seq<Artist>, releaseDate: string, images: seq<Image>, spotifyUrl: string)

  /** The upstream JSON body: `{"albums": {"items": [...]}}`, where either key may be absent. */
  datatype AlbumsPage = AlbumsPage(items: Option<seq<Item>>)
  datatype SearchBody = SearchBody(albums: Option<AlbumsPage>)

  /** The upstream answer: its status code and its body. */
  datatype Upstream = Upstream(status: int, body: SearchBody)

  /** What `GET /search` answers: the projected albums; a 401; the upstream's own non-200
      status passed through; or a 500 when an item has no artist (the comprehension's
      `IndexError` escapes the handler). */
  datatype SearchResponse =
    | Albums(albums: seq<Album>)
    | Unauthenticated(status: int, error: string)
    | UpstreamFailure(status: int)
    | InternalError

  /** The access token forwarded upstream: none unless the header is present and starts with
      "Bearer "; otherwise the header with exactly one leading "Bearer " removed. */
  function AccessToken(authorization: Option<string>): (token: Option<string>)
    ensures token.None? <==> authorization.None? || !StartsWith(authorization.value, Bearer)
    ensures token.Some? ==> Bearer + token.value == authorization.value
  {
    if authorization.None? || authorization.value == "" || !StartsWith(authorization.value, Bearer) then None
    else Some(RemovePrefix(authorization.value, Bearer))
  }

  /** The header sent upstream, `f"Bearer {access_token}"`, is the caller's header unchanged. */
  lemma ForwardedHeaderUnchanged(authorization: Option<string>)
    requires AccessToken(authorization).Some?
    ensures Some(Bearer + AccessToken(authorization).value) == authorization
  {
  }

  /** `response.json().get("albums", {}).get("items", [])` */
  function ItemsOf(body: SearchBody): (items: seq<Item>)
    ensures body.albums.None? ==> items == []
    ensures body.albums.Some? && body.albums.value.items.None? ==> items == []
    ensures body.albums.Some? && body.albums.value.items.Some? ==> items == body.albums.value.items.value
  {
    match body.albums
    case None => []
    case Some(page) => page.items.GetOr([])
  }

  /** One album record from one item: its first artist, and its first image or `None`. */
  function ProjectItem(item: Item): (album: Album)
    requires |item.artists| > 0
    ensures album.name == item.name && album.releaseDate == item.releaseDate
    ensures album.artist == item.artists[0].name
    ensures album.coverUrl.Some? <==> |item.images| > 0
    ensures album.coverUrl.Some? ==> album.coverUrl.value == item.images[0].url
    ensures album.spotifyUrl == item.spotifyUrl
  {
    Album(item.name, item.artists[0].name, item.releaseDate,
          if |item.images| > 0 then Some(item.images[0].url) else None,
          item.spotifyUrl)
  }

  /** The list comprehension: one album per item, in the items' order; it fails as a whole
      when any item lists no artist. */
  function ProjectItems(items: seq<Item>): (albums: Option<seq<Album>>)
    ensures albums.Some? <==> forall i :: 0 <= i < |items| ==> |items[i].artists| > 0
    ensures albums.Some? ==> |albums.value| == |items|
    ensures albums.Some? ==> forall i :: 0 <= i < |items| ==> albums.value[i] == ProjectItem(items[i])
  {
    if forall i :: 0 <= i < |items| ==> |items[i].artists| > 0 then
      Some(seq(|items|, i requires 0 <= i < |items| => ProjectItem(items[i])))
    else None
  }

  /** `search_album`, given the upstream answer: the bearer check comes before anything is
      sent, a non-200 upstream status is passed through, and otherwise the items are projected. */
  function SearchAlbum(authorization: Option<string>, upstream: Upstream): (resp: SearchResponse)
    ensures AccessToken(authorization).None? <==> resp == Unauthenticated(401, NotAuthenticated)
    ensures AccessToken(authorization).Some? && upstream.status != 200 ==> resp == UpstreamFailure(upstream.status)
    ensures resp.Albums? ==>
      && AccessToken(authorization).Some? && upstream.status == 200
      && ProjectItems(ItemsOf(upstream.body)) == Some(resp.albums)
    ensures AccessToken(authorization).Some? && upstream.status == 200 && ProjectItems(ItemsOf(upstream.body)).Some? ==>
      resp == Albums(ProjectItems(ItemsOf(upstream.body)).value)
    ensures resp == InternalError <==>
      AccessToken(authorization).Some? && upstream.status == 200 && ProjectItems(ItemsOf(upstream.body)).None?
  {
    if AccessToken(authorization).None? then Unauthenticated(401, NotAuthenticated)
    else if upstream.status != 200 then UpstreamFailure(upstream.status)
    else
      match ProjectItems(ItemsOf(upstream.body))
      case Some(albums) => Albums(albums)
      case None => InternalError
  }

  /** Missing "albums" or "items" keys give an empty, successful result. */
  lemma MissingKeysGiveNoAlbums(authorization: Option<string>, upstream: Upstream)
    requires AccessToken(authorization).Some? && upstream.status == 200
    requires upstream.body.albums.None? || upstream.body.albums.value.items.None?
    ensures SearchAlbum(authorization, upstream) == Albums([])
  {
  }
}
