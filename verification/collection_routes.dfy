/** The backend's collection routes: an in-memory table from access token to that token's
    ordered list of albums, read, appended to and deleted from by index. */
module CollectionRoutes {
  import opened Common
  import opened Strings

  const Unauthorized := "Unauthorized"
  const AddedMessage := "Album added to collection"
  const RemovedMessage := "Removed"
  const IndexOutOfRange := "Index out of range"

  /** Body of a successful add: a message and the token's new number of albums. */
  datatype Added = Added(message: string, total: int)

  /** Body of a successful delete: a message and the album that was removed. */
  datatype Removed = Removed(message: string, removed: Album)

  /** `get_token_user`: no token unless the header is present and starts with "Bearer ";
      otherwise the header with EVERY occurrence of "Bearer " deleted (`str.replace`). */
  function GetTokenUser(authorization: Option<string>): (token: Option<string>)
    ensures token.None? <==> authorization.None? || !StartsWith(authorization.value, Bearer)
    ensures token.Some? ==> |token.value| <= |authorization.value| - |Bearer|
  {
    if authorization.None? || authorization.value == "" || !StartsWith(authorization.value, Bearer) then None
    else Some(RemoveAll(authorization.value, Bearer))
  }

  /** A handler's `if not token`: a missing or empty token is answered with 401. A header
      that passes is longer than the scheme prefix it starts with. */
  function Rejects(authorization: Option<string>): (rejected: bool)
    ensures authorization.None? ==> rejected
    ensures !rejected ==> StartsWith(authorization.value, Bearer) && |authorization.value| > |Bearer|
  {
    var token := GetTokenUser(authorization);
    token.None? || token.value == ""
  }

  /** The header carries a token whose own text has no "Bearer " in it, and the scheme prefix
      comes back off it intact. */
  lemma {:induction false} TokenRoundTrip(token: string)
    requires !Occurs(token, Bearer)
    ensures GetTokenUser(Some(Bearer + token)) == Some(token)
    ensures Rejects(Some(Bearer + token)) <==> token == ""
  {
    assert StartsWith(Bearer + token, Bearer) by {
      assert (Bearer + token)[..|Bearer|] == Bearer;
    }
    RemoveAllLeading(Bearer, token);
    RemoveAllAbsent(token, Bearer);
  }

  /** A header of exactly "Bearer " passes the prefix test but yields the empty token,
      which every handler rejects. */
  lemma BareSchemeRejected()
    ensures GetTokenUser(Some(Bearer)) == Some("")
    ensures Rejects(Some(Bearer))
  {
  }

  /** Python's `list.pop(index)` for an index inside the list: the list without that one element. */
  function Pop<T>(s: seq<T>, index: int): (r: seq<T>)
    requires 0 <= index < |s|
    ensures |r| == |s| - 1
    ensures forall j :: 0 <= j < index ==> r[j] == s[j]
    ensures forall j :: index <= j < |r| ==> r[j] == s[j + 1]
    ensures multiset(r) + multiset{s[index]} == multiset(s)
  {
    assert s == s[..index] + [s[index]] + s[index + 1..];
    s[..index] + s[index + 1..]
  }

  /** The module-level `user_collections` dictionary and the three routes over it. */
  class CollectionStore {
    /** Each access token's albums, in the order they were added. */
    var userCollections: map<string, seq<Album>>

    /** Only tokens that passed the 401 guard are ever keys: the empty token never is. */
    ghost predicate Valid()
      reads this
    {
      forall token :: token in userCollections ==> token != ""
    }

    /** `user_collections.get(token, [])` */
    function Lookup(token: string): (albums: seq<Album>)
      reads this
      ensures token in userCollections ==> albums == userCollections[token]
      ensures token !in userCollections ==> albums == []
    {
      if token in userCollections then userCollections[token] else []
    }

    constructor ()
      ensures Valid() && userCollections == map[]
    {
      userCollections := map[];
    }

    /** `GET /collection`: the caller's albums, or none for an unknown token; changes nothing. */
    method GetCollection(authorization: Option<string>) returns (resp: Response<seq<Album>>)
      ensures Rejects(authorization) ==> resp == Error(401, Unauthorized)
      ensures !Rejects(authorization) ==>
        var token := GetTokenUser(authorization).value;
        resp == Ok(if token in userCollections then userCollections[token] else [])
    {
      var token := GetTokenUser(authorization);
      if token.None? || token.value == "" {
        return Error(401, Unauthorized);
      }
      resp := Ok(Lookup(token.value));
    }

    /** `POST /collection`: appends the album to the caller's list, with no duplicate check,
        and reports the new length; every other token's list is left as it was. */
    method AddToCollection(album: Album, authorization: Option<string>) returns (resp: Response<Added>)
      requires Valid()
      modifies this
      ensures Valid()
      ensures Rejects(authorization) ==>
        resp == Error(401, Unauthorized) && userCollections == old(userCollections)
      ensures !Rejects(authorization) ==>
        var token := GetTokenUser(authorization).value;
        && userCollections == old(userCollections)[token := old(Lookup(token)) + [album]]
        && resp == Ok(Added(AddedMessage, |old(Lookup(token))| + 1))
    {
      var token := GetTokenUser(authorization);
      if token.None? || token.value == "" {
        return Error(401, Unauthorized);
      }
      var collection := Lookup(token.value);
      collection := collection + [album];
      userCollections := userCollections[token.value := collection];
      resp := Ok(Added(AddedMessage, |collection|));
    }

    /** `DELETE /collection/{index}`: removes and returns the album at `index` when
        `0 <= index < len`; any other index is a 404 that leaves every list unchanged. */
    method DeleteFromCollection(index: int, authorization: Option<string>) returns (resp: Response<Removed>)
      requires Valid()
      modifies this
      ensures Valid()
      ensures Rejects(authorization) ==>
        resp == Error(401, Unauthorized) && userCollections == old(userCollections)
      ensures !Rejects(authorization) ==>
        var token := GetTokenUser(authorization).value;
        var before := old(Lookup(token));
        if 0 <= index < |before| then
          && resp == Ok(Removed(RemovedMessage, before[index]))
          && userCollections == old(userCollections)[token := Pop(before, index)]
        else
          resp == Error(404, IndexOutOfRange) && userCollections == old(userCollections)
    {
      var token := GetTokenUser(authorization);
      if token.None? || token.value == "" {
        return Error(401, Unauthorized);
      }
      var collection := Lookup(token.value);
      if 0 <= index < |collection| {
        var removed := collection[index];
        collection := Pop(collection, index);
        userCollections := userCollections[token.value := collection];
        return Ok(Removed(RemovedMessage, removed));
      }
      resp := Error(404, IndexOutOfRange);
    }
  }
}
