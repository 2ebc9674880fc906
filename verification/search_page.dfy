/** The search page: running a search, and adding a result to the collection while marking
    the matching results (and the album open in the detail view) as already collected. */
module SearchPage {
  import opened Common

  const NoAlbumsFound := "No albums found for your query."
  const SearchFailed := "Failed to search albums. Make sure you are logged in or the backend is running."
  const AddFailed := "Failed to add album. Are you logged in?"
  const AlbumAlreadyExists := "Album already exists in collection"

  function AlreadyInCollection(name: string): (message: string) {
    "\"" + name + "\" is already in your collection"
  }

  function AddedToCollection(name: string): (message: string) {
    "\"" + name + "\" added to your collection!"
  }

  /** One search result as the page holds it: the album's fields, its `id` (absent unless the
      JSON has one) and its `in_collection` flag (absent means false). */
  datatype SearchResult = SearchResult(album: Album, id: Option<string>, inCollection: bool)

  /** The album shown in the detail view: none; a search result; or the object
      `{in_collection: true}` that spreading a null selection produces, which has no other field. */
  datatype Selection = NoSelection | Selected(result: SearchResult) | FlagOnly

  /** An album record decoded from the backend's JSON: it carries no `id` and no `in_collection`. */
  function FromJson(album: Album): (result: SearchResult)
    ensures result.album == album && result.id.None? && !result.inCollection
  {
    SearchResult(album, None, false)
  }

  /** A character JavaScript's `trim()` removes: white space and line terminators.
      Letters and digits never are. */
  function IsWhitespace(c: char): (white: bool)
    ensures c == ' ' || c == '\t' || c == '\n' || c == '\r' ==> white
    ensures 'a' <= c <= 'z' || 'A' <= c <= 'Z' || '0' <= c <= '9' ==> !white
  {
    var n := c as int;
    n == 0x09 || n == 0x0A || n == 0x0B || n == 0x0C || n == 0x0D || n == 0x20 || n == 0xA0 ||
    n == 0x1680 || (0x2000 <= n <= 0x200A) || n == 0x2028 || n == 0x2029 || n == 0x202F ||
    n == 0x205F || n == 0x3000 || n == 0xFEFF
  }

  /** The leading-white-space half of `trim()`: what remains is a suffix of `s`, everything
      dropped is white space, and it does not itself start with white space. */
  function TrimStart(s: string): (r: string)
    ensures |r| <= |s| && r == s[|s| - |r|..]
    ensures forall i :: 0 <= i < |s| - |r| ==> IsWhitespace(s[i])
    ensures r != "" ==> !IsWhitespace(r[0])
  {
    if s != "" && IsWhitespace(s[0]) then TrimStart(s[1..]) else s
  }

  /** The trailing-white-space half of `trim()`: what remains is a prefix of `s`, everything
      dropped is white space, and it does not itself end with white space. */
  function TrimEnd(s: string): (r: string)
    ensures |r| <= |s| && r == s[..|r|]
    ensures forall i :: |r| <= i < |s| ==> IsWhitespace(s[i])
    ensures r != "" ==> !IsWhitespace(r[|r| - 1])
  {
    if s != "" && IsWhitespace(s[|s| - 1]) then TrimEnd(s[..|s| - 1]) else s
  }

  /** JavaScript's `s.trim()`: empty exactly when `s` is white space only; otherwise it neither
      starts nor ends with white space. */
  function Trim(s: string): (r: string)
    ensures r == "" <==> forall i :: 0 <= i < |s| ==> IsWhitespace(s[i])
    ensures r != "" ==> !IsWhitespace(r[0]) && !IsWhitespace(r[|r| - 1])
  {
    var start := TrimStart(s);
    var r := TrimEnd(start);
    assert r != "" ==> r[0] == start[0];
    r
  }

  /** The query is empty or white space only. */
  function IsBlank(query: string): (blank: bool)
    ensures query == "" ==> blank
  {
    forall i :: 0 <= i < |query| ==> IsWhitespace(query[i])
  }

  /** `!query.trim()` is exactly the blank test the search guard is stated with. */
  lemma TrimEmptyIffBlank(query: string)
    ensures Trim(query) == "" <==> IsBlank(query)
  {
  }

  /** `results.map(result => result.id === id ? {...result, in_collection: true} : result)`:
      exactly the results whose id equals `id` (absent equals absent) become collected; the
      length, the order and every other field stay as they were. */
  function MarkAdded(results: seq<SearchResult>, id: Option<string>): (marked: seq<SearchResult>)
    ensures |marked| == |results|
    ensures forall i :: 0 <= i < |results| ==>
      marked[i].album == results[i].album && marked[i].id == results[i].id
    ensures forall i :: 0 <= i < |results| ==>
      marked[i].inCollection == (results[i].inCollection || results[i].id == id)
  {
    seq(|results|, i requires 0 <= i < |results| =>
      if results[i].id == id then results[i].(inCollection := true) else results[i])
  }

  /** Marking twice is marking once. */
  lemma MarkAddedIdempotent(results: seq<SearchResult>, id: Option<string>)
    ensures MarkAdded(MarkAdded(results, id), id) == MarkAdded(results, id)
  {
  }

  /** When no result has an id and neither has the added album, every result is marked. */
  lemma MarkAddedWithoutIds(results: seq<SearchResult>)
    requires forall i :: 0 <= i < |results| ==> results[i].id.None?
    ensures forall i :: 0 <= i < |results| ==> MarkAdded(results, None)[i].inCollection
  {
  }

  /** `selectedAlbum?.id`: absent when nothing is selected or the selection has no id. */
  function SelectedId(selection: Selection): (id: Option<string>)
    ensures id.Some? ==> selection.Selected? && id == selection.result.id
  {
    if selection.Selected? then selection.result.id else None
  }

  /** `setSelectedAlbum(prev => ({...prev, in_collection: true}))`, applied only when
      `selectedAlbum?.id === id`. */
  function MarkSelection(selection: Selection, id: Option<string>): (marked: Selection)
    ensures SelectedId(selection) != id ==> marked == selection
    ensures SelectedId(selection) == id && selection.Selected? ==>
      marked == Selected(selection.result.(inCollection := true))
    ensures SelectedId(selection) == id && !selection.Selected? ==> marked == FlagOnly
  {
    if SelectedId(selection) != id then selection
    else match selection
      case Selected(result) => Selected(result.(inCollection := true))
      case _ => FlagOnly
  }

  /** The detail view is open when the selection is truthy (`isOpen={!!selectedAlbum}`). */
  function ModalOpen(selection: Selection): (open: bool)
    ensures selection.Selected? ==> open
    ensures selection == FlagOnly ==> open
    ensures selection == NoSelection ==> !open
  {
    !selection.NoSelection?
  }

  /** Adding an id-less album while nothing is selected replaces the empty selection with
      `{in_collection: true}`, which opens the detail view. */
  lemma IdlessAddOpensDetailView()
    ensures MarkSelection(NoSelection, None) == FlagOnly && ModalOpen(FlagOnly)
  {
  }

  /** The rejection the add handler treats as "already collected": status 400 with that error text. */
  function IsDuplicateRejection<T>(outcome: Outcome<T>): (duplicate: bool)
    ensures duplicate ==> outcome.Rejected? && outcome.status == Some(400)
    ensures outcome.Resolved? ==> !duplicate
  {
    outcome.Rejected? && outcome.status == Some(400) && outcome.error == Some(AlbumAlreadyExists)
  }

  class Page {
    var query: string
    var results: seq<SearchResult>
    var loading: bool
    var error: Option<string>
    var addSuccess: Option<string>
    var selectedAlbum: Selection

    /** The initial state: no query, no results, not loading, no messages, nothing selected. */
    constructor ()
      ensures query == "" && results == [] && !loading && error == None
      ensures addSuccess == None && selectedAlbum == NoSelection
    {
      query := "";
      results := [];
      loading := false;
      error := None;
      addSuccess := None;
      selectedAlbum := NoSelection;
    }

    /** The input's `onChange`: the query becomes the typed text. */
    method SetQuery(text: string)
      modifies this
      ensures query == text
      ensures results == old(results) && loading == old(loading) && error == old(error)
      ensures addSuccess == old(addSuccess) && selectedAlbum == old(selectedAlbum)
    {
      query := text;
    }

    /** The part of `handleSearch` before the request: a blank query does nothing; otherwise
        loading starts and results, error, success message and selection are cleared. */
    method BeginSearch() returns (started: bool)
      modifies this
      ensures started <==> !IsBlank(query)
      ensures query == old(query)
      ensures !started ==> results == old(results) && loading == old(loading) && error == old(error)
                           && addSuccess == old(addSuccess) && selectedAlbum == old(selectedAlbum)
      ensures started ==> loading && error == None && results == [] && addSuccess == None
                          && selectedAlbum == NoSelection
    {
      started := !IsBlank(query);
      if started {
        loading := true;
        error := None;
        results := [];
        addSuccess := None;
        selectedAlbum := NoSelection;
      }
    }

    /** The part of `handleSearch` after the request. A response with data shows it, and an
        empty one also sets "No albums found"; a response without data clears the results and,
        because reading its length throws, sets the generic failure; a rejection sets its error.
        Loading ends in every case. */
    method SettleSearch(outcome: Outcome<seq<SearchResult>>)
      modifies this
      ensures !loading
      ensures query == old(query) && addSuccess == old(addSuccess) && selectedAlbum == old(selectedAlbum)
      ensures outcome.Resolved? && outcome.data.Some? ==>
        results == outcome.data.value &&
        error == (if outcome.data.value == [] then Some(NoAlbumsFound) else old(error))
      ensures outcome.Resolved? && outcome.data.None? ==> results == [] && error == Some(SearchFailed)
      ensures outcome.Rejected? ==>
        results == old(results) && error == Some(MessageOr(outcome.error, SearchFailed))
    {
      match outcome {
        case Resolved(data) =>
          results := data.GetOr([]);
          if data.None? {
            error := Some(SearchFailed);
          } else if |data.value| == 0 {
            error := Some(NoAlbumsFound);
          }
        case Rejected(_, message) =>
          error := Some(MessageOr(message, SearchFailed));
      }
      loading := false;
    }

    /** `handleSearch`, given how `searchAlbums(query)` settles: nothing at all for a blank
        query; otherwise the success message and selection end cleared, the results are the
        response's (none on failure) and loading ends. */
    method HandleSearch(outcome: Outcome<seq<SearchResult>>) returns (started: bool)
      modifies this
      ensures started <==> !IsBlank(query)
      ensures query == old(query)
      ensures !started ==> results == old(results) && loading == old(loading) && error == old(error)
                           && addSuccess == old(addSuccess) && selectedAlbum == old(selectedAlbum)
      ensures started ==> !loading && addSuccess == None && selectedAlbum == NoSelection
      ensures started && outcome.Resolved? && outcome.data.Some? ==>
        results == outcome.data.value &&
        error == (if outcome.data.value == [] then Some(NoAlbumsFound) else None)
      ensures started && outcome.Resolved? && outcome.data.None? ==>
        results == [] && error == Some(SearchFailed)
      ensures started && outcome.Rejected? ==>
        results == [] && error == Some(MessageOr(outcome.error, SearchFailed))
    {
      started := BeginSearch();
      if started {
        SettleSearch(outcome);
      }
    }

    /** `handleAddToCollection(album)`, given how `addToCollection(album)` settles. An album
        already flagged is refused with an error and no request. Otherwise success, or the
        "already exists" 400, marks the results (and the selection) whose id equals the
        album's; any other failure only sets its error. */
    method HandleAddToCollection<T>(album: SearchResult, outcome: Outcome<T>) returns (requested: bool)
      modifies this
      ensures requested <==> !album.inCollection
      ensures query == old(query) && loading == old(loading)
      ensures !requested ==>
        && results == old(results) && selectedAlbum == old(selectedAlbum)
        && error == Some(AlreadyInCollection(album.album.name)) && addSuccess == None
      ensures requested && outcome.Resolved? ==>
        && results == MarkAdded(old(results), album.id)
        && selectedAlbum == MarkSelection(old(selectedAlbum), album.id)
        && error == None && addSuccess == Some(AddedToCollection(album.album.name))
      ensures requested && IsDuplicateRejection(outcome) ==>
        && results == MarkAdded(old(results), album.id)
        && selectedAlbum == MarkSelection(old(selectedAlbum), album.id)
        && error == Some(AlreadyInCollection(album.album.name)) && addSuccess == None
      ensures requested && outcome.Rejected? && !IsDuplicateRejection(outcome) ==>
        && results == old(results) && selectedAlbum == old(selectedAlbum)
        && error == Some(MessageOr(outcome.error, AddFailed)) && addSuccess == None
    {
      addSuccess := None;
      error := None;
      if album.inCollection {
        error := Some(AlreadyInCollection(album.album.name));
        return false;
      }
      requested := true;
      match outcome {
        case Resolved(_) =>
          addSuccess := Some(AddedToCollection(album.album.name));
          results := MarkAdded(results, album.id);
          selectedAlbum := MarkSelection(selectedAlbum, album.id);
        case Rejected(status, message) =>
          if status == Some(400) && message == Some(AlbumAlreadyExists) {
            results := MarkAdded(results, album.id);
            selectedAlbum := MarkSelection(selectedAlbum, album.id);
            error := Some(AlreadyInCollection(album.album.name));
          } else {
            error := Some(MessageOr(message, AddFailed));
          }
      }
    }
  }
}
