/**
  `ManageLocationsViewModel`: the permission state machine, the fold of the saved
  list into the screen state, the removal of a location, the weather of the current
  location (with its country/state patch) and the intents that only forward an action.
 */
module ManageLocations {
  import opened Wrappers
  import opened Kotlin
  import opened Domain
  import opened Results
  import opened Collections
  import opened LocationStore
  import opened LocationUseCases
  import opened BaseViewModel

  // ---------------------------------------------------------------------------
  // The permission state

  datatype PermissionState = PermissionState(
    hasLocationPermission: bool,
    shouldShowRationale: bool,
    isPermissionDeniedPermanently: bool,
    isLocationEnabled: bool,
    permissionRequestCount: Int)

  function DefaultPermissionState(): PermissionState {
    PermissionState(false, false, false, false, 0)
  }

  /** What `CheckLocationPermissionUseCase` reports about the device. */
  datatype PermissionInfo = PermissionInfo(hasLocationPermission: bool, isLocationEnabled: bool)

  /**
    `checkPermissionState()`: the device's answer is copied, the rationale flag is
    reset, and "permanently denied" is cleared only when permission is now granted.
   */
  function CheckStep(p: PermissionState, info: PermissionInfo): (r: PermissionState)
    ensures r.hasLocationPermission == info.hasLocationPermission
    ensures r.isLocationEnabled == info.isLocationEnabled
    ensures !r.shouldShowRationale
    ensures r.isPermissionDeniedPermanently <==> !info.hasLocationPermission && p.isPermissionDeniedPermanently
    ensures r.permissionRequestCount == p.permissionRequestCount
  {
    p.(hasLocationPermission := info.hasLocationPermission,
       isLocationEnabled := info.isLocationEnabled,
       isPermissionDeniedPermanently := if info.hasLocationPermission then false else p.isPermissionDeniedPermanently,
       shouldShowRationale := false)
  }

  /** `handleLocationPermissionGranted()`, the state update before the location is loaded. */
  function GrantedStep(p: PermissionState): (r: PermissionState)
    ensures r.hasLocationPermission && !r.isPermissionDeniedPermanently
    ensures r.shouldShowRationale == p.shouldShowRationale && r.isLocationEnabled == p.isLocationEnabled
    ensures r.permissionRequestCount == p.permissionRequestCount
  {
    p.(hasLocationPermission := true, isPermissionDeniedPermanently := false)
  }

  /**
    `handleLocationPermissionDenied(isPermanentlyDenied, shouldShowRationale)`: the flags
    come from the intent and the request counter goes up by one, in 32-bit arithmetic.
   */
  function DeniedStep(p: PermissionState, isPermanentlyDenied: bool, shouldShowRationale: bool): (r: PermissionState)
    ensures !r.hasLocationPermission
    ensures r.isPermissionDeniedPermanently == isPermanentlyDenied && r.shouldShowRationale == shouldShowRationale
    ensures r.isLocationEnabled == p.isLocationEnabled
    ensures p.permissionRequestCount < INT_MAX ==> r.permissionRequestCount == p.permissionRequestCount + 1
    ensures p.permissionRequestCount == INT_MAX ==> r.permissionRequestCount == INT_MIN
  {
    p.(hasLocationPermission := false,
       isPermissionDeniedPermanently := isPermanentlyDenied,
       shouldShowRationale := shouldShowRationale,
       permissionRequestCount := WrapInt(p.permissionRequestCount + 1))
  }

  /** The three intents that change the permission state. */
  datatype PermissionEvent =
    | CheckPermission(info: PermissionInfo)
    | PermissionGranted
    | PermissionDenied(isPermanentlyDenied: bool, shouldShowRationale: bool)

  function PermissionStep(p: PermissionState, e: PermissionEvent): PermissionState {
    match e
    case CheckPermission(info) => CheckStep(p, info)
    case PermissionGranted => GrantedStep(p)
    case PermissionDenied(permanently, rationale) => DeniedStep(p, permanently, rationale)
  }

  /** The number of denials in a sequence of permission events. */
  function CountDenials(es: seq<PermissionEvent>): nat
    decreases |es|
  {
    if es == [] then 0
    else CountDenials(es[..|es| - 1]) + (if es[|es| - 1].PermissionDenied? then 1 else 0)
  }

  /**
    The request counter counts denials exactly, whatever the checks and grants in
    between, as long as it does not overflow.
   */
  lemma {:induction false} RequestCountCountsDenials(p: PermissionState, es: seq<PermissionEvent>)
    requires p.permissionRequestCount + CountDenials(es) <= INT_MAX
    ensures FoldLeft(PermissionStep, p, es).permissionRequestCount == p.permissionRequestCount + CountDenials(es)
    decreases |es|
  {
    if es != [] {
      RequestCountCountsDenials(p, es[..|es| - 1]);
    }
  }

  /** Hence the counter never decreases before it would pass `Int.MAX_VALUE`. */
  lemma RequestCountNeverDecreases(p: PermissionState, es: seq<PermissionEvent>)
    requires p.permissionRequestCount + CountDenials(es) <= INT_MAX
    ensures FoldLeft(PermissionStep, p, es).permissionRequestCount >= p.permissionRequestCount
  {
    RequestCountCountsDenials(p, es);
  }

  /** The one way the counter goes down: a denial at `Int.MAX_VALUE` wraps around. */
  lemma DenialAtIntMaxWraps(p: PermissionState)
    requires p.permissionRequestCount == INT_MAX
    ensures PermissionStep(p, PermissionDenied(false, false)).permissionRequestCount < p.permissionRequestCount
  {
  }

  // ---------------------------------------------------------------------------
  // The screen state

  datatype UiState = UiState(
    isLoadingCurrentLocation: bool,
    isLoadingWeather: bool,
    isLoadingSavedLocations: bool,
    permissionState: PermissionState,
    currentSavedLocation: Option<SavedLocation>,
    currentLocationWeather: Option<WeatherData>,
    savedLocationList: seq<SavedLocation>,
    isMaxLocationsReached: bool,
    error: Option<AppError>)

  /** `ManageLocationsUiState()` with its default arguments. */
  function DefaultUiState(): UiState {
    UiState(false, false, false, DefaultPermissionState(), None, None, [], false, None)
  }

  /** The "maximum reached" flag describes the list shown next to it. */
  predicate MaxFlagAgrees(s: UiState) {
    s.isMaxLocationsReached <==> |s.savedLocationList| >= MAX_SAVED_LOCATIONS
  }

  /** With the flag in agreement, it is exactly the cap rejection of the save use case. */
  lemma MaxFlagIsCapRejection(s: UiState, l: SavedLocation)
    requires MaxFlagAgrees(s)
    ensures s.isMaxLocationsReached <==> SaveRejection(s.savedLocationList, l) == Some(MaxExceededError())
  {
    if !s.isMaxLocationsReached {
      assert MaxExceededError().errorType != ErrorOfType(LOCATION_ALREADY_EXISTS).errorType;
    }
  }

  /** One result of `getSavedLocationsUseCase()` folded into the state (`loadSavedLocations`). */
  function SavedLocationsStep(s: UiState, r: Result<seq<SavedLocation>>): (t: UiState)
    ensures t.isLoadingSavedLocations <==> r.Loading?
    ensures r.Success? ==> t.savedLocationList == r.data
    ensures r.Success? ==> (t.isMaxLocationsReached <==> |r.data| >= MAX_SAVED_LOCATIONS)
    ensures !r.Success? ==> t.savedLocationList == s.savedLocationList && t.isMaxLocationsReached == s.isMaxLocationsReached
    ensures r.Error? ==> t.error == Some(r.appError)
    ensures !r.Error? ==> t.error == s.error
    ensures r.Success? || MaxFlagAgrees(s) ==> MaxFlagAgrees(t)
    ensures t.permissionState == s.permissionState && t.currentSavedLocation == s.currentSavedLocation
    ensures t.currentLocationWeather == s.currentLocationWeather
    ensures t.isLoadingWeather == s.isLoadingWeather && t.isLoadingCurrentLocation == s.isLoadingCurrentLocation
  {
    match r
    case Loading => s.(isLoadingSavedLocations := true)
    case Success(list) =>
      s.(savedLocationList := list, isLoadingSavedLocations := false,
         isMaxLocationsReached := |list| >= MAX_SAVED_LOCATIONS)
    case Error(e) => s.(isLoadingSavedLocations := false, error := Some(e))
  }

  /**
    The state after the whole `toResult` stream of a saved-list flow, in closed form:
    the last list emitted is shown with its flag; a failure ends loading and shows its
    error; an empty flow leaves loading on.
   */
  function LoadedState(s: UiState, saved: Flow<seq<SavedLocation>>): (r: UiState)
    ensures MaxFlagAgrees(s) ==> MaxFlagAgrees(r)
  {
    var n := |saved.values|;
    var listed :=
      if n == 0 then s.(isLoadingSavedLocations := true)
      else s.(savedLocationList := saved.values[n - 1], isLoadingSavedLocations := false,
              isMaxLocationsReached := |saved.values[n - 1]| >= MAX_SAVED_LOCATIONS);
    match saved.failure
    case None => listed
    case Some(e) => listed.(isLoadingSavedLocations := false, error := Some(ToAppError(e)))
  }

  lemma {:induction false} FoldSuccesses(s: UiState, vs: seq<seq<SavedLocation>>)
    ensures vs == [] ==> FoldLeft(SavedLocationsStep, s, Successes(vs)) == s
    ensures vs != [] ==> FoldLeft(SavedLocationsStep, s, Successes(vs)) == SavedLocationsStep(s, Success(vs[|vs| - 1]))
    decreases |vs|
  {
    if vs != [] {
      var init := vs[..|vs| - 1];
      assert Successes(vs) == Successes(init) + [Success(vs[|vs| - 1])];
      FoldLeftSnoc(SavedLocationsStep, s, Successes(init), Success(vs[|vs| - 1]));
      FoldSuccesses(s, init);
    }
  }

  /** Folding `getSavedLocationsUseCase()` step by step reaches the closed form. */
  lemma LoadSavedLocationsClosedForm(s: UiState, saved: Flow<seq<SavedLocation>>)
    ensures FoldLeft(SavedLocationsStep, s, ToResult(saved)) == LoadedState(s, saved)
  {
    var lo: seq<Result<seq<SavedLocation>>> := [Loading];
    var term: seq<Result<seq<SavedLocation>>> := Terminal(saved.failure);
    var head := lo + Successes(saved.values);
    assert ToResult(saved) == head + term;
    FoldLeftAppend(SavedLocationsStep, s, head, term);
    FoldLeftAppend(SavedLocationsStep, s, lo, Successes(saved.values));
    assert lo[..0] == [];
    var loading := SavedLocationsStep(s, Loading);
    assert FoldLeft(SavedLocationsStep, s, lo) == loading;
    FoldSuccesses(loading, saved.values);
    if saved.failure.Some? {
      assert term[..0] == [];
    }
  }

  /** Loading the same saved list twice shows what loading it once shows. */
  lemma LoadedStateIdempotent(s: UiState, saved: Flow<seq<SavedLocation>>)
    ensures LoadedState(LoadedState(s, saved), saved) == LoadedState(s, saved)
  {
    var once := LoadedState(s, saved);
    var n := |saved.values|;
    if n == 0 {
      assert once.isLoadingSavedLocations == saved.failure.None?;
    } else {
      assert once.savedLocationList == saved.values[n - 1];
    }
  }

  /** After a flow that ends normally with a list, that list is shown, with its flag, and loading is over. */
  lemma LoadedListShown(s: UiState, saved: Flow<seq<SavedLocation>>)
    requires saved.failure.None? && |saved.values| >= 1
    ensures var t := FoldLeft(SavedLocationsStep, s, ToResult(saved));
      && t.savedLocationList == saved.values[|saved.values| - 1]
      && (t.isMaxLocationsReached <==> |saved.values[|saved.values| - 1]| >= MAX_SAVED_LOCATIONS)
      && !t.isLoadingSavedLocations && t.error == s.error
  {
    LoadSavedLocationsClosedForm(s, saved);
  }

  /** `currentSavedLocation?.copy(country = …, state = …)`: only the address of a present location changes. */
  function PatchAddress(current: Option<SavedLocation>, from: SavedLocation): (r: Option<SavedLocation>)
    ensures r.None? <==> current.None?
    ensures r.Some? ==> r.value.country == from.country && r.value.state == from.state
    ensures r.Some? ==> r.value.(country := current.value.country, state := current.value.state) == current.value
  {
    match current
    case None => None
    case Some(l) => Some(l.(country := from.country, state := from.state))
  }

  /** One result of the weather use case folded into the state (`loadWeatherForCurrentLocation`). */
  function WeatherStep(s: UiState, r: Result<WeatherData>): (t: UiState)
    ensures t.isLoadingWeather <==> r.Loading?
    ensures r.Success? ==> t.currentLocationWeather == Some(r.data) && t.error.None?
    ensures r.Success? ==> t.currentSavedLocation == PatchAddress(s.currentSavedLocation, r.data.location)
    ensures !r.Success? ==>
      t.currentSavedLocation == s.currentSavedLocation && t.currentLocationWeather == s.currentLocationWeather
    ensures r.Error? ==> t.error == Some(r.appError)
    ensures r.Loading? ==> t.error == s.error
    ensures t.savedLocationList == s.savedLocationList && t.isMaxLocationsReached == s.isMaxLocationsReached
    ensures t.permissionState == s.permissionState && t.isLoadingSavedLocations == s.isLoadingSavedLocations
    ensures t.isLoadingCurrentLocation == s.isLoadingCurrentLocation
  {
    match r
    case Loading => s.(isLoadingWeather := true)
    case Success(weather) =>
      s.(currentLocationWeather := Some(weather),
         currentSavedLocation := PatchAddress(s.currentSavedLocation, weather.location),
         isLoadingWeather := false, error := None)
    case Error(e) => s.(isLoadingWeather := false, error := Some(e))
  }

  /** `a` and `b` are the same location, up to country and state. */
  predicate SameButAddress(a: SavedLocation, b: SavedLocation) {
    a.(country := b.country, state := b.state) == b
  }

  /**
    However many weather results arrive, a missing current location stays missing, a
    present one keeps everything but its address, and the saved list is not touched.
   */
  lemma {:induction false} WeatherFoldKeepsIdentity(s: UiState, rs: seq<Result<WeatherData>>)
    ensures var t := FoldLeft(WeatherStep, s, rs);
      && (t.currentSavedLocation.None? <==> s.currentSavedLocation.None?)
      && (t.currentSavedLocation.Some? ==> SameButAddress(s.currentSavedLocation.value, t.currentSavedLocation.value))
      && t.savedLocationList == s.savedLocationList && t.isMaxLocationsReached == s.isMaxLocationsReached
      && t.permissionState == s.permissionState
    decreases |rs|
  {
    if rs != [] {
      WeatherFoldKeepsIdentity(s, rs[..|rs| - 1]);
    }
  }

  // ---------------------------------------------------------------------------
  // Actions

  datatype ManageLocationsAction =
    | RequestPermission
    | OpenAppSettings
    | OpenLocationSettings
    | NavigateToWeatherDetails(location: SavedLocation)
    | NavigateToPlacesSearch
    | ShowMessage(message: string)

  /** The intents that do nothing but send an action to the view. */
  datatype ForwardedIntent =
    | RequestPermissionIntent
    | OpenAppSettingsIntent
    | OpenLocationSettingsIntent
    | NavigateToWeatherDetailsIntent(location: SavedLocation)
    | NavigateToPlacesSearchIntent
    | SelectLocationIntent(location: SavedLocation)

  /** The action each forwarding intent sends; selecting a location navigates to its weather. */
  function ForwardedAction(i: ForwardedIntent): (a: ManageLocationsAction)
    ensures !a.ShowMessage?
    ensures a.NavigateToWeatherDetails? <==> i.NavigateToWeatherDetailsIntent? || i.SelectLocationIntent?
    ensures a.NavigateToWeatherDetails? ==> a.location == i.location
  {
    match i
    case RequestPermissionIntent => RequestPermission
    case OpenAppSettingsIntent => OpenAppSettings
    case OpenLocationSettingsIntent => OpenLocationSettings
    case NavigateToWeatherDetailsIntent(l) => NavigateToWeatherDetails(l)
    case NavigateToPlacesSearchIntent => NavigateToPlacesSearch
    case SelectLocationIntent(l) => NavigateToWeatherDetails(l)
  }

  /** Two forwarding intents send the same action exactly when they are equal or both open the same location. */
  lemma ForwardedActionsDistinct(i: ForwardedIntent, j: ForwardedIntent)
    ensures ForwardedAction(i) == ForwardedAction(j) <==>
      i == j || ((i.NavigateToWeatherDetailsIntent? || i.SelectLocationIntent?)
                 && (j.NavigateToWeatherDetailsIntent? || j.SelectLocationIntent?)
                 && i.location == j.location)
  {
  }

  /** The text `removeLocation` shows. */
  const LOCATION_REMOVED: string := "Location removed"

  // ---------------------------------------------------------------------------
  // The view model

  class ManageLocationsViewModel {
    var uiState: UiState
    const base: ComposeBaseViewModel<ManageLocationsAction>

    ghost predicate Valid()
      reads this, base
    {
      base.Valid() && MaxFlagAgrees(uiState)
    }

    /** The state before `init` starts its loads. */
    constructor ()
      ensures Valid() && fresh(base) && base.viewAction == []
      ensures uiState == DefaultUiState()
    {
      base := new ComposeBaseViewModel();
      uiState := DefaultUiState();
    }

    /** `collect { result -> _uiState.update { step(it, result) } }` over a finite stream. */
    method Collect<R>(step: (UiState, R) -> UiState, results: seq<R>)
      modifies this
      ensures uiState == FoldLeft(step, old(uiState), results)
    {
      var i := 0;
      while i < |results|
        invariant 0 <= i <= |results|
        invariant uiState == FoldLeft(step, old(uiState), results[..i])
      {
        FoldLeftSnoc(step, old(uiState), results[..i], results[i]);
        assert results[..i + 1] == results[..i] + [results[i]];
        uiState := step(uiState, results[i]);
        i := i + 1;
      }
      assert results[..|results|] == results;
    }

    /** The CheckPermissionState intent, given what the device reports. */
    method CheckPermissionState(info: PermissionInfo)
      requires Valid()
      modifies this
      ensures Valid()
      ensures uiState == old(uiState).(permissionState := CheckStep(old(uiState).permissionState, info))
    {
      uiState := uiState.(permissionState := CheckStep(uiState.permissionState, info));
    }

    /** The LocationPermissionGranted intent, up to the location load it then starts. */
    method LocationPermissionGranted()
      requires Valid()
      modifies this
      ensures Valid()
      ensures uiState == old(uiState).(permissionState := GrantedStep(old(uiState).permissionState))
    {
      uiState := uiState.(permissionState := GrantedStep(uiState.permissionState));
    }

    /** The LocationPermissionDenied intent. */
    method LocationPermissionDenied(isPermanentlyDenied: bool, shouldShowRationale: bool)
      requires Valid()
      modifies this
      ensures Valid()
      ensures uiState == old(uiState).(permissionState :=
        DeniedStep(old(uiState).permissionState, isPermanentlyDenied, shouldShowRationale))
    {
      uiState := uiState.(permissionState := DeniedStep(uiState.permissionState, isPermanentlyDenied, shouldShowRationale));
    }

    /** `loadSavedLocations()` over the saved-list flow `saved`, wrapped by `toResult`. */
    method LoadSavedLocations(saved: Flow<seq<SavedLocation>>)
      requires Valid()
      modifies this
      ensures Valid()
      ensures uiState == FoldLeft(SavedLocationsStep, old(uiState), ToResult(saved))
      ensures uiState == LoadedState(old(uiState), saved)
    {
      Collect(SavedLocationsStep, ToResult(saved));
      LoadSavedLocationsClosedForm(old(uiState), saved);
    }

    /**
      `removeLocation(id)` given the results of the removal use case and the saved-list
      flow read by the reload. Every Success, whatever Boolean it carries, shows the
      "Location removed" message and reloads the list; nothing else has an effect.
     */
    method RemoveLocation(removeResults: seq<Result<bool>>, saved: Flow<seq<SavedLocation>>)
      requires Valid()
      modifies this, base
      ensures Valid()
      ensures (exists i :: 0 <= i < |removeResults| && removeResults[i].Success?) ==>
        uiState == LoadedState(old(uiState), saved) && base.viewAction == [ScreenAction(ShowMessage(LOCATION_REMOVED))]
      ensures (forall i :: 0 <= i < |removeResults| ==> !removeResults[i].Success?) ==>
        uiState == old(uiState) && base.viewAction == old(base.viewAction)
    {
      var i := 0;
      while i < |removeResults|
        invariant 0 <= i <= |removeResults|
        invariant Valid()
        invariant (exists j :: 0 <= j < i && removeResults[j].Success?) ==>
          uiState == LoadedState(old(uiState), saved) && base.viewAction == [ScreenAction(ShowMessage(LOCATION_REMOVED))]
        invariant (forall j :: 0 <= j < i ==> !removeResults[j].Success?) ==>
          uiState == old(uiState) && base.viewAction == old(base.viewAction)
      {
        if IsSuccess(removeResults[i]) {
          var _ := base.SendAction(ShowMessage(LOCATION_REMOVED));
          LoadSavedLocations(saved);
          if exists j :: 0 <= j < i && removeResults[j].Success? {
            LoadedStateIdempotent(old(uiState), saved);
          }
        }
        i := i + 1;
      }
    }

    /**
      The RemoveLocation intent against the store: the removal, then the reload reading
      the store's list once. The message is shown even when the store edit fails.
     */
    method RemoveFromStore(store: LocationDataSource, id: string, editFails: bool)
      requires Valid()
      modifies this, base, store
      ensures Valid()
      ensures store.currentLocation == old(store.currentLocation)
      ensures !editFails ==> uiState.savedLocationList == WithoutId(old(store.GetAllSavedLocations()), id)
      ensures editFails ==> uiState.savedLocationList == old(store.GetAllSavedLocations())
      ensures !uiState.isLoadingSavedLocations && uiState.error == old(uiState.error)
      ensures base.viewAction == [ScreenAction(ShowMessage(LOCATION_REMOVED))]
    {
      var ok := store.RemoveLocation(id, editFails);
      var results := ToResult(Flow([ok], None));
      assert results[1].Success?;
      RemoveLocation(results, Flow([store.GetAllSavedLocations()], None));
    }

    /** `loadWeatherForCurrentLocation(latitude, longitude)` over the weather use case's results. */
    method LoadWeatherForCurrentLocation(weather: (Double, Double) -> seq<Result<WeatherData>>,
                                         latitude: Double, longitude: Double)
      requires Valid()
      modifies this
      ensures Valid()
      ensures uiState == FoldLeft(WeatherStep, old(uiState), weather(latitude, longitude))
    {
      Collect(WeatherStep, weather(latitude, longitude));
      WeatherFoldKeepsIdentity(old(uiState), weather(latitude, longitude));
    }

    /** The intents that only forward an action to the view. */
    method Forward(i: ForwardedIntent)
      requires Valid()
      modifies base
      ensures Valid()
      ensures base.viewAction == [ScreenAction(ForwardedAction(i))]
    {
      var _ := base.SendAction(ForwardedAction(i));
    }
  }
}
