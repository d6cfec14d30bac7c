/**
  `PlacesSearchViewModel`: the query handling, the search fold, the add-location fold
  and the load of the saved list that decides whether the "maximum reached" state is
  shown.
 */
module PlacesSearch {
  import opened Wrappers
  import opened Kotlin
  import opened Domain
  import opened Results
  import opened Collections
  import opened LocationUseCases
  import opened BaseViewModel

  datatype UiState = UiState(
    searchResults: seq<PlaceSearchResult>,
    savedLocations: seq<SavedLocation>,
    isSearching: bool,
    isAddingLocation: bool,
    addingLocationId: Option<string>,
    searchError: Option<string>,
    isMaxLocationsReached: bool,
    isLocationServicesEnabled: bool)

  /** `PlacesSearchUiState()` with its default arguments. */
  function DefaultUiState(): UiState {
    UiState([], [], false, false, None, None, false, true)
  }

  datatype PlacesSearchAction = ShowError(message: string) | ShowSuccess(message: string) | NavigateBack

  /** What the view model has done after handling some results: the new state and the actions it sent, in order. */
  datatype Outcome = Outcome(state: UiState, sent: seq<PlacesSearchAction>)

  /** A place is marked as being added exactly when its id is recorded. */
  predicate AddingConsistent(s: UiState) {
    s.isAddingLocation <==> s.addingLocationId.Some?
  }

  /** The search and add-location fields are disjoint; these are the add-location ones. */
  predicate SameAddPart(s: UiState, t: UiState) {
    && t.savedLocations == s.savedLocations
    && t.isAddingLocation == s.isAddingLocation
    && t.addingLocationId == s.addingLocationId
    && t.isMaxLocationsReached == s.isMaxLocationsReached
  }

  // ---------------------------------------------------------------------------
  // Queries

  /** The reset shared by a blank query and ClearSearch: no results, not searching, no error. */
  function ResetSearch(s: UiState): (t: UiState)
    ensures t.searchResults == [] && !t.isSearching && t.searchError.None?
    ensures SameAddPart(s, t) && t.isLocationServicesEnabled == s.isLocationServicesEnabled
  {
    s.(searchResults := [], isSearching := false, searchError := None)
  }

  /** The number of blank queries in a stream. */
  function CountBlank(queries: seq<string>): nat {
    if queries == [] then 0 else (if IsBlank(queries[0]) then 1 else 0) + CountBlank(queries[1..])
  }

  /**
    The query stream after `filter { it.isNotBlank() }`: the queries that reach `performSearch`.
    Only the blank ones are dropped, so a repeated non-blank query reaches the search each time.
   */
  function SearchedQueries(queries: seq<string>): (r: seq<string>)
    ensures |r| == |queries| - CountBlank(queries)
    ensures forall i :: 0 <= i < |r| ==> !IsBlank(r[i])
    ensures forall q :: q in r <==> q in queries && !IsBlank(q)
    ensures IsSubsequence(r, queries)
    decreases |queries|
  {
    if queries == [] then []
    else
      var rest := SearchedQueries(queries[1..]);
      assert forall q :: q in queries <==> q == queries[0] || q in queries[1..];
      if IsBlank(queries[0]) then
        assert IsSubsequence(rest, queries) by { SubsequenceOfTail(rest, queries); }
        rest
      else
        var r := [queries[0]] + rest;
        assert r[1..] == rest;
        r
  }

  lemma SubsequenceOfTail<T>(a: seq<T>, b: seq<T>)
    requires b != [] && IsSubsequence(a, b[1..])
    ensures IsSubsequence(a, b)
  {
  }

  // ---------------------------------------------------------------------------
  // performSearch

  /** One result of the search use case folded into the state. */
  function SearchStep(s: UiState, r: Result<seq<PlaceSearchResult>>): (o: Outcome)
    ensures SameAddPart(s, o.state) && o.state.isLocationServicesEnabled == s.isLocationServicesEnabled
    ensures o.state.isSearching <==> r.Loading?
    ensures r.Loading? ==> o.state.searchResults == s.searchResults
    ensures r.Success? ==> o.state.searchResults == r.data
    ensures r.Error? ==> o.state.searchResults == []
    ensures !r.Error? ==> o.state.searchError.None? && o.sent == []
    ensures r.Error? ==> o.state.searchError == Some(r.appError.message) && o.sent == [ShowError(r.appError.message)]
  {
    match r
    case Loading => Outcome(s.(isSearching := true, searchError := None), [])
    case Success(places) => Outcome(s.(searchResults := places, isSearching := false, searchError := None), [])
    case Error(e) =>
      Outcome(s.(searchResults := [], isSearching := false, searchError := Some(e.message)), [ShowError(e.message)])
  }

  /** The search results folded in order, with all the actions sent along the way. */
  function SearchFold(s: UiState, rs: seq<Result<seq<PlaceSearchResult>>>): Outcome
    decreases |rs|
  {
    if rs == [] then Outcome(s, [])
    else
      var before := SearchFold(s, rs[..|rs| - 1]);
      var step := SearchStep(before.state, rs[|rs| - 1]);
      Outcome(step.state, before.sent + step.sent)
  }

  /** The number of Error results in a stream. */
  function CountErrors<T>(rs: seq<Result<T>>): nat
    decreases |rs|
  {
    if rs == [] then 0 else CountErrors(rs[..|rs| - 1]) + (if rs[|rs| - 1].Error? then 1 else 0)
  }

  /**
    A search never touches the add-location part, and it sends one ShowError per
    Error result, carrying that error's message, and nothing else.
   */
  lemma {:induction false} SearchFoldSpec(s: UiState, rs: seq<Result<seq<PlaceSearchResult>>>)
    ensures var o := SearchFold(s, rs);
      && SameAddPart(s, o.state)
      && |o.sent| == CountErrors(rs)
      && forall a :: a in o.sent ==> a.ShowError? && exists i :: 0 <= i < |rs| && rs[i].Error? && a.message == rs[i].appError.message
    ensures (forall i :: 0 <= i < |rs| ==> !rs[i].Error?) ==> SearchFold(s, rs).sent == []
    decreases |rs|
  {
    if rs != [] {
      var init := rs[..|rs| - 1];
      SearchFoldSpec(s, init);
      var o := SearchFold(s, rs);
      forall a | a in o.sent
        ensures a.ShowError? && exists i :: 0 <= i < |rs| && rs[i].Error? && a.message == rs[i].appError.message
      {
        var before := SearchFold(s, init);
        if a in before.sent {
          var i :| 0 <= i < |init| && init[i].Error? && a.message == init[i].appError.message;
          assert rs[i] == init[i];
        } else {
          assert rs[|rs| - 1].Error? && a.message == rs[|rs| - 1].appError.message;
        }
      }
      if forall i :: 0 <= i < |rs| ==> !rs[i].Error? {
        assert forall i :: 0 <= i < |init| ==> init[i] == rs[i];
      }
    }
  }

  /** After a search stream ending in a result, that result decides what is shown. */
  lemma LastSearchResultShown(s: UiState, rs: seq<Result<seq<PlaceSearchResult>>>)
    requires |rs| >= 1 && !rs[|rs| - 1].Loading?
    ensures var t := SearchFold(s, rs).state;
      && !t.isSearching
      && (rs[|rs| - 1].Success? ==> t.searchResults == rs[|rs| - 1].data && t.searchError.None?)
      && (rs[|rs| - 1].Error? ==> t.searchResults == [] && t.searchError == Some(rs[|rs| - 1].appError.message))
  {
  }

  // ---------------------------------------------------------------------------
  // loadSavedLocations

  /** The state update of `loadSavedLocations` once it has a list: shown, flagged, adding over. */
  function SavedListStep(s: UiState, list: seq<SavedLocation>): (t: UiState)
    ensures t.savedLocations == list && (t.isMaxLocationsReached <==> |list| >= MAX_SAVED_LOCATIONS)
    ensures !t.isAddingLocation && t.addingLocationId.None?
    ensures t.searchResults == s.searchResults && t.isSearching == s.isSearching && t.searchError == s.searchError
  {
    s.(savedLocations := list, isMaxLocationsReached := |list| >= MAX_SAVED_LOCATIONS,
       isAddingLocation := false, addingLocationId := None)
  }

  /**
    The list `loadSavedLocations` uses, as written: `getOrNull()` of the FIRST element
    of `getSavedLocationsUseCase()`, or the empty list.
   */
  function SavedListAsWritten(saved: Flow<seq<SavedLocation>>): seq<SavedLocation> {
    GetOrNull(ToResult(saved)[0]).GetOr([])
  }

  /** The first element of the use case's stream is always Loading, so the list read is always empty. */
  lemma SavedListAsWrittenIsEmpty(saved: Flow<seq<SavedLocation>>)
    ensures SavedListAsWritten(saved) == []
  {
  }

  /** Five saved locations, yet the screen is told that more can be added. */
  lemma AsWrittenMissesFullList(s: UiState, l: SavedLocation)
    ensures var five := [l, l, l, l, l];
      var t := SavedListStep(s, SavedListAsWritten(Flow([five], None)));
      && |five| >= MAX_SAVED_LOCATIONS
      && !t.isMaxLocationsReached && t.savedLocations == []
  {
    SavedListAsWrittenIsEmpty(Flow([[l, l, l, l, l]], None));
  }

  /** The first element of a stream that is not Loading, if any. */
  function FirstNonLoading<T>(rs: seq<Result<T>>): (r: Option<Result<T>>)
    ensures r.None? <==> forall i :: 0 <= i < |rs| ==> rs[i].Loading?
    ensures r.Some? ==> !r.value.Loading? && exists i :: 0 <= i < |rs| && rs[i] == r.value && forall j :: 0 <= j < i ==> rs[j].Loading?
    decreases |rs|
  {
    if rs == [] then None
    else if !rs[0].Loading? then Some(rs[0])
    else
      var r := FirstNonLoading(rs[1..]);
      assert forall i :: 1 <= i < |rs| ==> rs[i] == rs[1..][i - 1];
      r
  }

  /** The intended list: `getOrNull()` of the first result that is not Loading, or the empty list. */
  function SavedListCorrected(saved: Flow<seq<SavedLocation>>): seq<SavedLocation> {
    match FirstNonLoading(ToResult(saved))
    case None => []
    case Some(r) => GetOrNull(r).GetOr([])
  }

  /** The corrected load reads the first list the store emits; a failed or empty read gives the empty list. */
  lemma SavedListCorrectedReadsFirstValue(saved: Flow<seq<SavedLocation>>)
    ensures |saved.values| >= 1 ==> SavedListCorrected(saved) == saved.values[0]
    ensures saved.values == [] ==> SavedListCorrected(saved) == []
  {
    var rs := ToResult(saved);
    var r := FirstNonLoading(rs);
    if |saved.values| >= 1 {
      assert rs[1] == Success(saved.values[0]);
      var i :| 0 <= i < |rs| && rs[i] == r.value && forall j :: 0 <= j < i ==> rs[j].Loading?;
      assert i == 1;
    } else if r.Some? {
      var i :| 0 <= i < |rs| && rs[i] == r.value && forall j :: 0 <= j < i ==> rs[j].Loading?;
      assert rs[i].Error?;
    }
  }

  /** With the correction, a full store is reported as full. */
  lemma CorrectedReportsFullList(s: UiState, saved: Flow<seq<SavedLocation>>)
    requires |saved.values| >= 1
    ensures var t := SavedListStep(s, SavedListCorrected(saved));
      && t.savedLocations == saved.values[0]
      && (t.isMaxLocationsReached <==> |saved.values[0]| >= MAX_SAVED_LOCATIONS)
  {
    SavedListCorrectedReadsFirstValue(saved);
  }

  // ---------------------------------------------------------------------------
  // handleAddLocation

  /** Kotlin's string template of a nullable message: `null` prints as "null". */
  function MessageText(m: Option<string>): string {
    m.GetOr("null")
  }

  function AddedMessage(place: PlaceSearchResult): string {
    place.name + " added successfully"
  }

  const SAVE_FAILED_MESSAGE: string := "Failed to save location"

  /** The state `handleAddLocation` starts from: adding, with the place's id recorded. */
  function StartAdding(s: UiState, place: PlaceSearchResult): (t: UiState)
    ensures t.isAddingLocation && t.addingLocationId == Some(place.placeId) && AddingConsistent(t)
  {
    s.(isAddingLocation := true, addingLocationId := Some(place.placeId))
  }

  /** Every failure path of `handleAddLocation` ends adding. */
  function StopAdding(s: UiState): (t: UiState)
    ensures !t.isAddingLocation && t.addingLocationId.None? && AddingConsistent(t)
  {
    s.(isAddingLocation := false, addingLocationId := None)
  }

  /**
    One result of the save use case folded into the state. On Success(true) the saved
    list is reloaded (with `savedList` the list that reload reads) and two actions
    are sent; every other non-Loading result ends adding and sends one error.
   */
  function AddStep(s: UiState, place: PlaceSearchResult, savedList: seq<SavedLocation>, r: Result<bool>): (o: Outcome)
    ensures AddingConsistent(o.state)
    ensures r.Loading? ==> o.state == StartAdding(s, place) && o.sent == []
    ensures r == Success(true) ==>
      o.state == SavedListStep(s, savedList) && o.sent == [ShowSuccess(AddedMessage(place)), NavigateBack]
    ensures r == Success(false) ==> o.state == StopAdding(s) && o.sent == [ShowError(SAVE_FAILED_MESSAGE)]
    ensures r.Error? ==> o.state == StopAdding(s) && o.sent == [ShowError(r.appError.message)]
    ensures !r.Loading? ==> !o.state.isAddingLocation
  {
    match r
    case Loading => Outcome(StartAdding(s, place), [])
    case Success(saved) =>
      if saved then Outcome(SavedListStep(s, savedList), [ShowSuccess(AddedMessage(place)), NavigateBack])
      else Outcome(StopAdding(s), [ShowError(SAVE_FAILED_MESSAGE)])
    case Error(e) => Outcome(StopAdding(s), [ShowError(e.message)])
  }

  function AddFold(s: UiState, place: PlaceSearchResult, savedList: seq<SavedLocation>, rs: seq<Result<bool>>): Outcome
    decreases |rs|
  {
    if rs == [] then Outcome(s, [])
    else
      var before := AddFold(s, place, savedList, rs[..|rs| - 1]);
      var step := AddStep(before.state, place, savedList, rs[|rs| - 1]);
      Outcome(step.state, before.sent + step.sent)
  }

  /**
    The whole of `handleAddLocation(place)`: start adding, fold the use case's
    results, and, when collecting throws `thrown`, end adding with an error that
    carries the exception's message.
   */
  function AddLocation(s: UiState, place: PlaceSearchResult, savedList: seq<SavedLocation>,
                       rs: seq<Result<bool>>, thrown: Option<Throwable>): Outcome
  {
    var collected := AddFold(StartAdding(s, place), place, savedList, rs);
    match thrown
    case None => collected
    case Some(e) =>
      Outcome(StopAdding(collected.state), collected.sent + [ShowError(ThrownMessage(e))])
  }

  /** The message shown when collecting the save throws: the fixed prefix, then the exception's message. */
  function ThrownMessage(e: Throwable): (m: string)
    ensures m == SAVE_FAILED_MESSAGE + ": " + MessageText(e.message)
    ensures SAVE_FAILED_MESSAGE <= m
  {
    SAVE_FAILED_MESSAGE + ": " + MessageText(e.message)
  }

  /**
    The add-location flow against the save use case: adding always ends, and the
    screen navigates back exactly when the location passed both checks and was written.
    A rejected save shows the rejection's message.
   */
  lemma AddLocationOutcome(s: UiState, place: PlaceSearchResult, now: Long, list: seq<SavedLocation>,
                           readFailure: Option<Throwable>, written: bool, savedList: seq<SavedLocation>)
    ensures var l := ToSavedLocation(place, now);
      var o := AddLocation(s, place, savedList, SaveNewLocationResults(list, l, readFailure, written), None);
      && !o.state.isAddingLocation && o.state.addingLocationId.None?
      && (NavigateBack in o.sent <==> readFailure.None? && CanSave(list, l) && written)
      && (readFailure.None? && !CanSave(list, l) ==>
            o.sent == [ShowError(SaveRejection(list, l).value.message)])
  {
    var l := ToSavedLocation(place, now);
    var rs := SaveNewLocationResults(list, l, readFailure, written);
    var start := StartAdding(s, place);
    if readFailure.Some? {
      assert rs == [Loading, Error(SaveFailedError(readFailure.value))];
      AddFoldRejected(start, place, savedList, SaveFailedError(readFailure.value));
    } else if !CanSave(list, l) {
      assert rs == [Loading, Error(SaveRejection(list, l).value)];
      AddFoldRejected(start, place, savedList, SaveRejection(list, l).value);
    } else {
      assert rs == [Loading, Loading, Success(written)];
      AddFoldSaved(start, place, savedList, written);
    }
  }

  /** A save that is rejected after its Loading ends adding and sends the rejection's message only. */
  lemma AddFoldRejected(start: UiState, place: PlaceSearchResult, savedList: seq<SavedLocation>, e: AppError)
    requires start == StartAdding(start, place)
    ensures var o := AddFold(start, place, savedList, [Loading, Error(e)]);
      o.state == StopAdding(start) && o.sent == [ShowError(e.message)]
  {
    var rs: seq<Result<bool>> := [Loading, Error(e)];
    assert rs[..1] == [Loading];
    AddFoldLoading(start, place, savedList);
  }

  /** A save that passes both checks sends the success and navigation actions exactly when it was written. */
  lemma AddFoldSaved(start: UiState, place: PlaceSearchResult, savedList: seq<SavedLocation>, written: bool)
    requires start == StartAdding(start, place)
    ensures var o := AddFold(start, place, savedList, [Loading, Loading, Success(written)]);
      && !o.state.isAddingLocation && o.state.addingLocationId.None?
      && o.sent == if written then [ShowSuccess(AddedMessage(place)), NavigateBack] else [ShowError(SAVE_FAILED_MESSAGE)]
  {
    var rs: seq<Result<bool>> := [Loading, Loading, Success(written)];
    var two: seq<Result<bool>> := [Loading, Loading];
    assert rs[..2] == two && two[..1] == [Loading];
    AddFoldLoading(start, place, savedList);
    assert AddFold(start, place, savedList, two) == Outcome(start, []);
  }

  /** The Loading the save emits first leaves the adding state as it is and sends nothing. */
  lemma AddFoldLoading(start: UiState, place: PlaceSearchResult, savedList: seq<SavedLocation>)
    requires start == StartAdding(start, place)
    ensures AddFold(start, place, savedList, [Loading]) == Outcome(start, [])
  {
    var one: seq<Result<bool>> := [Loading];
    assert one[..0] == [];
    assert AddFold(start, place, savedList, one[..0]) == Outcome(start, []);
  }

  // ---------------------------------------------------------------------------
  // The view model

  class PlacesSearchViewModel {
    var uiState: UiState
    var searchQuery: string
    const base: ComposeBaseViewModel<PlacesSearchAction>

    ghost predicate Valid()
      reads this, base
    {
      base.Valid() && AddingConsistent(uiState)
    }

    /** The state before `init` loads the saved list and starts the debounced search. */
    constructor ()
      ensures Valid() && fresh(base) && base.viewAction == []
      ensures uiState == DefaultUiState() && searchQuery == ""
    {
      base := new ComposeBaseViewModel();
      uiState := DefaultUiState();
      searchQuery := "";
    }

    /** Sends the actions one after the other; the slot ends with the last of them. */
    method SendAll(actions: seq<PlacesSearchAction>)
      requires Valid()
      modifies base
      ensures Valid()
      ensures actions == [] ==> base.viewAction == old(base.viewAction)
      ensures actions != [] ==> base.viewAction == [ScreenAction(actions[|actions| - 1])]
    {
      var i := 0;
      while i < |actions|
        invariant 0 <= i <= |actions|
        invariant Valid()
        invariant i == 0 ==> base.viewAction == old(base.viewAction)
        invariant i > 0 ==> base.viewAction == [ScreenAction(actions[i - 1])]
      {
        var _ := base.SendAction(actions[i]);
        i := i + 1;
      }
    }

    /** `handleSearchPlaces(query)`: the query is stored; a blank one also resets the search. */
    method HandleSearchPlaces(query: string)
      requires Valid()
      modifies this
      ensures Valid()
      ensures searchQuery == query
      ensures IsBlank(query) ==> uiState == ResetSearch(old(uiState))
      ensures !IsBlank(query) ==> uiState == old(uiState)
    {
      searchQuery := query;
      if IsBlank(query) {
        uiState := ResetSearch(uiState);
      }
    }

    /** `handleClearSearch()`: the same as searching for the empty query. */
    method HandleClearSearch()
      requires Valid()
      modifies this
      ensures Valid()
      ensures searchQuery == "" && IsBlank(searchQuery)
      ensures uiState == ResetSearch(old(uiState))
    {
      searchQuery := "";
      uiState := ResetSearch(uiState);
    }

    /** `performSearch(query)` over the results of the search use case for that query. */
    method PerformSearch(results: seq<Result<seq<PlaceSearchResult>>>) returns (sent: seq<PlacesSearchAction>)
      requires Valid()
      modifies this, base
      ensures Valid() && searchQuery == old(searchQuery)
      ensures Outcome(uiState, sent) == SearchFold(old(uiState), results)
      ensures sent != [] ==> base.viewAction == [ScreenAction(sent[|sent| - 1])]
      ensures sent == [] ==> base.viewAction == old(base.viewAction)
    {
      sent := [];
      var i := 0;
      while i < |results|
        invariant 0 <= i <= |results|
        invariant Valid() && searchQuery == old(searchQuery)
        invariant Outcome(uiState, sent) == SearchFold(old(uiState), results[..i])
        invariant sent != [] ==> base.viewAction == [ScreenAction(sent[|sent| - 1])]
        invariant sent == [] ==> base.viewAction == old(base.viewAction)
      {
        assert results[..i + 1][..i] == results[..i];
        var step := SearchStep(uiState, results[i]);
        uiState := step.state;
        SendAll(step.sent);
        sent := sent + step.sent;
        i := i + 1;
      }
      assert results[..|results|] == results;
    }

    /** `loadSavedLocations()` over the saved-list flow, reading its first non-Loading result. */
    method LoadSavedLocations(saved: Flow<seq<SavedLocation>>)
      requires Valid()
      modifies this
      ensures Valid() && searchQuery == old(searchQuery)
      ensures uiState == SavedListStep(old(uiState), SavedListCorrected(saved))
    {
      uiState := SavedListStep(uiState, SavedListCorrected(saved));
    }

    /** The `collect` of `handleAddLocation`: each save result is folded into the state and its actions sent. */
    method CollectSave(place: PlaceSearchResult, savedList: seq<SavedLocation>, rs: seq<Result<bool>>)
      returns (sent: seq<PlacesSearchAction>)
      requires Valid()
      modifies this, base
      ensures Valid() && searchQuery == old(searchQuery)
      ensures Outcome(uiState, sent) == AddFold(old(uiState), place, savedList, rs)
      ensures sent != [] ==> base.viewAction == [ScreenAction(sent[|sent| - 1])]
      ensures sent == [] ==> base.viewAction == old(base.viewAction)
    {
      ghost var start := uiState;
      sent := [];
      var i := 0;
      while i < |rs|
        invariant 0 <= i <= |rs|
        invariant Valid() && searchQuery == old(searchQuery)
        invariant Outcome(uiState, sent) == AddFold(start, place, savedList, rs[..i])
        invariant sent != [] ==> base.viewAction == [ScreenAction(sent[|sent| - 1])]
        invariant sent == [] ==> base.viewAction == old(base.viewAction)
      {
        assert rs[..i + 1][..i] == rs[..i];
        var step := AddStep(uiState, place, savedList, rs[i]);
        assert AddFold(start, place, savedList, rs[..i + 1]) == Outcome(step.state, sent + step.sent);
        uiState := step.state;
        SendAll(step.sent);
        sent := sent + step.sent;
        i := i + 1;
      }
      assert rs[..|rs|] == rs;
    }

    /**
      `handleAddLocation(place)`: `rs` are the save use case's results, `thrown` an
      exception escaping the collection, and `saved` the flow the reload reads.
     */
    method HandleAddLocation(place: PlaceSearchResult, rs: seq<Result<bool>>, thrown: Option<Throwable>,
                             saved: Flow<seq<SavedLocation>>)
      returns (sent: seq<PlacesSearchAction>)
      requires Valid()
      modifies this, base
      ensures Valid() && searchQuery == old(searchQuery)
      ensures Outcome(uiState, sent) == AddLocation(old(uiState), place, SavedListCorrected(saved), rs, thrown)
      ensures sent != [] ==> base.viewAction == [ScreenAction(sent[|sent| - 1])]
      ensures sent == [] ==> base.viewAction == old(base.viewAction)
    {
      var savedList := SavedListCorrected(saved);
      uiState := StartAdding(uiState, place);
      ghost var collected := AddFold(uiState, place, savedList, rs);
      sent := CollectSave(place, savedList, rs);
      assert Outcome(uiState, sent) == collected;
      if thrown.Some? {
        uiState := StopAdding(uiState);
        var failure := ShowError(ThrownMessage(thrown.value));
        var _ := base.SendAction(failure);
        sent := sent + [failure];
      }
    }
  }
}
