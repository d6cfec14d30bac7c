/**
  The saved-location rules: `SaveNewLocationUseCase` (cap, then duplicate check, then
  write) and `CanAddMoreLocationsUseCase` (the cap on its own).
 */
module LocationUseCases {
  import opened Wrappers
  import opened Domain
  import opened Results
  import opened LocationStore

  /** `LocationConstants.MAX_SAVED_LOCATIONS`, as the "/5" counters of the screens show it. */
  const MAX_SAVED_LOCATIONS: nat := 5

  /** The duplicate test of the save: the same id, or the same latitude and longitude. */
  predicate Conflicts(existing: SavedLocation, l: SavedLocation) {
    existing.id == l.id || (existing.latitude == l.latitude && existing.longitude == l.longitude)
  }

  /** `currentLocations.find { … }`: the first saved entry that conflicts with `l`. */
  function FindConflict(s: seq<SavedLocation>, l: SavedLocation): (r: Option<SavedLocation>)
    ensures r.None? <==> forall i :: 0 <= i < |s| ==> !Conflicts(s[i], l)
    ensures r.Some? ==>
      exists i :: 0 <= i < |s| && s[i] == r.value && Conflicts(s[i], l) && (forall j :: 0 <= j < i ==> !Conflicts(s[j], l))
  {
    if s == [] then None
    else if Conflicts(s[0], l) then
      Some(s[0])
    else
      var r := FindConflict(s[1..], l);
      assert forall i :: 1 <= i < |s| ==> s[i] == s[1..][i - 1];
      r
  }

  /** A location the use case goes on to write: room left and no conflict. */
  predicate CanSave(s: seq<SavedLocation>, l: SavedLocation) {
    |s| < MAX_SAVED_LOCATIONS && forall i :: 0 <= i < |s| ==> !Conflicts(s[i], l)
  }

  function MaxExceededError(): AppError {
    AppError(LOCATION_MAX_EXCEEDED, "", None, None, [MAX_SAVED_LOCATIONS])
  }

  /** The exception mapping of the use case: LOCATION_SAVE_FAILED with the message ("" when null). */
  function SaveFailedError(e: Throwable): AppError {
    AppError(LOCATION_SAVE_FAILED, e.message.GetOr(""), None, Some(e), [])
  }

  /**
    The checks of the save, in their order: a full list is rejected first, whether or
    not the location is also a duplicate; a duplicate is rejected next.
   */
  function SaveRejection(s: seq<SavedLocation>, l: SavedLocation): (r: Option<AppError>)
    ensures r.None? <==> CanSave(s, l)
    ensures |s| >= MAX_SAVED_LOCATIONS ==> r == Some(MaxExceededError())
    ensures |s| >= MAX_SAVED_LOCATIONS ==> r.value.errorType == LOCATION_MAX_EXCEEDED && r.value.params == [5]
    ensures |s| < MAX_SAVED_LOCATIONS && !CanSave(s, l) ==> r == Some(ErrorOfType(LOCATION_ALREADY_EXISTS))
  {
    if |s| >= MAX_SAVED_LOCATIONS then Some(MaxExceededError())
    else if FindConflict(s, l).Some? then Some(ErrorOfType(LOCATION_ALREADY_EXISTS))
    else None
  }

  /**
    What `SaveNewLocationUseCase(location)` emits, given the saved list it reads, the
    exception that read throws if it fails, and the Boolean the store's write emits.
    Loading comes first in every case. A write is forwarded through `toResult`, which
    adds a second Loading before the Boolean.
   */
  function SaveNewLocationResults(s: seq<SavedLocation>, l: SavedLocation, readFailure: Option<Throwable>,
                                  written: bool): (r: seq<Result<bool>>)
    ensures |r| >= 2 && r[0] == Loading
    ensures readFailure.Some? ==> r == [Loading, Error(SaveFailedError(readFailure.value))]
    ensures readFailure.None? && |s| >= MAX_SAVED_LOCATIONS ==> r == [Loading, Error(MaxExceededError())]
    ensures readFailure.None? && |s| < MAX_SAVED_LOCATIONS && !CanSave(s, l) ==>
      r == [Loading, Error(ErrorOfType(LOCATION_ALREADY_EXISTS))]
    ensures readFailure.None? && CanSave(s, l) ==> r == [Loading, Loading, Success(written)]
    ensures r[|r| - 1].Success? <==> readFailure.None? && CanSave(s, l)
  {
    match readFailure
    case Some(e) => [Loading, Error(SaveFailedError(e))]
    case None =>
      match SaveRejection(s, l)
      case Some(err) => [Loading, Error(err)]
      case None => [Loading] + ToResult(Flow([written], None))
  }

  /**
    `CanAddMoreLocationsUseCase()`: one Boolean per emission of the saved list, true
    exactly when the list has room, which is exactly when the save's cap check would
    not reject, whatever the location.
   */
  function CanAddMoreLocations(saved: Flow<seq<SavedLocation>>): (r: seq<Result<bool>>)
    ensures WellFormedStream(r)
    ensures |r| == 1 + |saved.values| + (if saved.failure.Some? then 1 else 0)
    ensures forall i :: 0 <= i < |saved.values| ==>
      r[i + 1] == Success(|saved.values[i]| < MAX_SAVED_LOCATIONS)
    ensures forall i, l :: 0 <= i < |saved.values| ==>
      (r[i + 1] == Success(true) <==> SaveRejection(saved.values[i], l) != Some(MaxExceededError()))
    ensures saved.failure.Some? ==> r[|r| - 1] == Error(ToAppError(saved.failure.value))
  {
    var mapped := MapFlow((s: seq<SavedLocation>) => |s| < MAX_SAVED_LOCATIONS, saved);
    ToResultWellFormed(mapped);
    ToResult(mapped)
  }

  // ---------------------------------------------------------------------------
  // The invariant the rules keep on the saved list

  /** At most MAX entries, and no two of them conflict (same id, or same coordinates). */
  predicate ValidSavedList(s: seq<SavedLocation>) {
    && |s| <= MAX_SAVED_LOCATIONS
    && forall i, j :: 0 <= i < j < |s| ==> !Conflicts(s[i], s[j])
  }

  /** An accepted save deletes nothing in the store's upsert: the list grows by one. */
  lemma AcceptedSaveAppends(s: seq<SavedLocation>, l: SavedLocation)
    requires CanSave(s, l)
    ensures Upsert(s, l) == s + [l]
    ensures |Upsert(s, l)| == |s| + 1 <= MAX_SAVED_LOCATIONS
  {
    UpsertNewAppends(s, l);
  }

  lemma AcceptedSaveKeepsValid(s: seq<SavedLocation>, l: SavedLocation)
    requires ValidSavedList(s) && CanSave(s, l)
    ensures ValidSavedList(Upsert(s, l))
  {
    AcceptedSaveAppends(s, l);
    var r := s + [l];
    forall i, j | 0 <= i < j < |r| ensures !Conflicts(r[i], r[j]) {
      if j == |s| {
        assert r[i] == s[i] && r[j] == l;
      } else {
        assert r[i] == s[i] && r[j] == s[j];
      }
    }
  }

  lemma {:induction false} RemoveKeepsValid(s: seq<SavedLocation>, id: string)
    requires ValidSavedList(s)
    ensures ValidSavedList(WithoutId(s, id))
  {
    WithoutIdSpec(s, id);
    if s != [] {
      assert ValidSavedList(s[1..]) by {
        forall i, j | 0 <= i < j < |s[1..]| ensures !Conflicts(s[1..][i], s[1..][j]) {
          assert s[1..][i] == s[i + 1] && s[1..][j] == s[j + 1];
        }
      }
      RemoveKeepsValid(s[1..], id);
      var rest := WithoutId(s[1..], id);
      if s[0].id != id {
        var r := WithoutId(s, id);
        assert r == [s[0]] + rest;
        forall m | 0 <= m < |rest| ensures !Conflicts(s[0], rest[m]) {
          WithoutIdMembers(s[1..], id, m);
          var i :| 0 <= i < |s[1..]| && s[1..][i] == rest[m];
          assert s[1..][i] == s[i + 1];
        }
        forall i, j | 0 <= i < j < |r| ensures !Conflicts(r[i], r[j]) {
          assert r[j] == rest[j - 1];
          if i > 0 {
            assert r[i] == rest[i - 1];
          }
        }
      }
    }
  }

  /**
    `SaveNewLocationUseCase(location)` against the store. `readFailure` stands for the
    read of the saved list throwing, `editFails` for the store's write failing.
   */
  method SaveNewLocation(store: LocationDataSource, l: SavedLocation, readFailure: Option<Throwable>, editFails: bool)
    returns (emitted: seq<Result<bool>>)
    modifies store
    ensures emitted == SaveNewLocationResults(old(store.GetAllSavedLocations()), l, readFailure, !editFails)
    ensures store.currentLocation == old(store.currentLocation)
    ensures readFailure.None? && CanSave(old(store.GetAllSavedLocations()), l) && !editFails ==>
      store.savedLocations == Stored(old(store.GetAllSavedLocations()) + [l])
    ensures !(readFailure.None? && CanSave(old(store.GetAllSavedLocations()), l) && !editFails) ==>
      store.savedLocations == old(store.savedLocations)
    ensures ValidSavedList(old(store.GetAllSavedLocations())) ==> ValidSavedList(store.GetAllSavedLocations())
  {
    emitted := [Loading];
    if readFailure.Some? {
      emitted := emitted + [Error(SaveFailedError(readFailure.value))];
      return;
    }
    var currentLocations := store.GetAllSavedLocations();
    if |currentLocations| >= MAX_SAVED_LOCATIONS {
      emitted := emitted + [Error(MaxExceededError())];
      return;
    }
    var existingLocation := FindConflict(currentLocations, l);
    if existingLocation.Some? {
      emitted := emitted + [Error(ErrorOfType(LOCATION_ALREADY_EXISTS))];
      return;
    }
    var ok := store.SaveLocation(l, editFails);
    AcceptedSaveAppends(currentLocations, l);
    if ValidSavedList(currentLocations) {
      AcceptedSaveKeepsValid(currentLocations, l);
    }
    emitted := emitted + ToResult(Flow([ok], None));
  }
}
