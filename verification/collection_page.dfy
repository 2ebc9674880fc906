/** The collection page: loading the caller's collection on mount, and removing an album
    optimistically, reverting when the backend refuses. */
module CollectionPage {
  import opened Common

  const LoginPrompt := "Please log in to view your collection."
  const LoadFailed := "Failed to load collection. Are you logged in?"
  const RemoveFailed := "Failed to remove album."

  /** `s.filter((_, index) => index !== k)`: every element whose position differs from `k`,
      in order (positions are tested from the last one back). */
  function Without<T>(s: seq<T>, k: int): (r: seq<T>)
    ensures |r| == if 0 <= k < |s| then |s| - 1 else |s|
  {
    if s == [] then []
    else Without(s[..|s| - 1], k) + (if |s| - 1 == k then [] else [s[|s| - 1]])
  }

  /** For a position inside the list, the filter drops that one element and keeps the rest in order. */
  lemma {:induction false} WithoutInRange<T>(s: seq<T>, k: int)
    requires 0 <= k < |s|
    ensures Without(s, k) == s[..k] + s[k + 1..]
  {
    var n := |s| - 1;
    if k < n {
      WithoutInRange(s[..n], k);
      assert s[..n][..k] == s[..k];
      assert s[..n][k + 1..] + [s[n]] == s[k + 1..];
    } else {
      WithoutOutOfRange(s[..n], k);
      assert s[..n] == s[..k];
      assert s[k + 1..] == [];
    }
  }

  /** For a position outside the list, negative or past the end, the filter keeps every element. */
  lemma {:induction false} WithoutOutOfRange<T>(s: seq<T>, k: int)
    requires !(0 <= k < |s|)
    ensures Without(s, k) == s
  {
    if s != [] {
      WithoutOutOfRange(s[..|s| - 1], k);
      assert s[..|s| - 1] + [s[|s| - 1]] == s;
    }
  }

  class Page {
    var collection: seq<Album>
    var loading: bool
    var error: Option<string>

    /** The initial state: an empty collection, loading, no error. */
    constructor ()
      ensures collection == [] && loading && error == None
    {
      collection := [];
      loading := true;
      error := None;
    }

    /** `fetchCollection`, given how `getCollection()` settles: on success the collection is
        the response data (or empty when there is none) and the error is cleared; on failure
        the collection is kept and the error is set; loading ends in every case. */
    method FetchCollection(outcome: Outcome<seq<Album>>)
      modifies this
      ensures !loading
      ensures outcome.Resolved? ==> collection == outcome.data.GetOr([]) && error == None
      ensures outcome.Rejected? ==>
        collection == old(collection) && error == Some(MessageOr(outcome.error, LoadFailed))
    {
      loading := true;
      error := None;
      match outcome {
        case Resolved(data) =>
          collection := data.GetOr([]);
        case Rejected(_, message) =>
          error := Some(MessageOr(message, LoadFailed));
      }
      loading := false;
    }

    /** The mount effect: with a truthy stored token it fetches (and `outcome` is how that
        request settles); without one it sets the login prompt, stops loading and requests nothing. */
    method Mount(storedToken: Option<string>, outcome: Outcome<seq<Album>>) returns (fetched: bool)
      modifies this
      ensures fetched <==> storedToken.Some? && storedToken.value != ""
      ensures !loading
      ensures !fetched ==> collection == old(collection) && error == Some(LoginPrompt)
      ensures fetched && outcome.Resolved? ==> collection == outcome.data.GetOr([]) && error == None
      ensures fetched && outcome.Rejected? ==>
        collection == old(collection) && error == Some(MessageOr(outcome.error, LoadFailed))
    {
      fetched := storedToken.Some? && storedToken.value != "";
      if fetched {
        FetchCollection(outcome);
      } else {
        error := Some(LoginPrompt);
        loading := false;
      }
    }

    /** The part of `handleRemove` before the request: the list without position `indexToRemove`
        is shown at once, and the original is kept for a revert. */
    method RemoveOptimistically(indexToRemove: int) returns (original: seq<Album>)
      modifies this
      ensures original == old(collection)
      ensures collection == Without(original, indexToRemove)
      ensures loading == old(loading) && error == old(error)
    {
      original := collection;
      collection := Without(collection, indexToRemove);
    }

    /** The part of `handleRemove` after the request: success keeps the filtered list; failure
        sets the error and puts back exactly the original list. */
    method SettleRemove<T>(original: seq<Album>, outcome: Outcome<T>)
      modifies this
      ensures loading == old(loading)
      ensures outcome.Resolved? ==> collection == old(collection) && error == old(error)
      ensures outcome.Rejected? ==>
        collection == original && error == Some(MessageOr(outcome.error, RemoveFailed))
    {
      if outcome.Rejected? {
        error := Some(MessageOr(outcome.error, RemoveFailed));
        collection := original;
      }
    }

    /** `handleRemove(indexToRemove)`, given how `deleteFromCollection` settles. A successful
        removal of a position in the list drops exactly that album and keeps the rest in order;
        a position outside the list changes nothing; a failure leaves the original list. */
    method HandleRemove<T>(indexToRemove: int, outcome: Outcome<T>)
      modifies this
      ensures loading == old(loading)
      ensures outcome.Resolved? && 0 <= indexToRemove < |old(collection)| ==>
        && |collection| == |old(collection)| - 1
        && collection == old(collection)[..indexToRemove] + old(collection)[indexToRemove + 1..]
        && error == old(error)
      ensures outcome.Resolved? && !(0 <= indexToRemove < |old(collection)|) ==>
        collection == old(collection) && error == old(error)
      ensures outcome.Rejected? ==>
        collection == old(collection) && error == Some(MessageOr(outcome.error, RemoveFailed))
    {
      var original := RemoveOptimistically(indexToRemove);
      if 0 <= indexToRemove < |original| {
        WithoutInRange(original, indexToRemove);
      } else {
        WithoutOutOfRange(original, indexToRemove);
      }
      SettleRemove(original, outcome);
    }
  }
}
