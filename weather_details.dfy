/**
  `WeatherDetailsViewModel`: the screen state, the folds of the current-weather and
  forecast streams into it, the navigation intents and the no-location branch.
 */
module WeatherDetails {
  import opened Wrappers
  import opened Domain
  import opened Results
  import opened Collections
  import opened ForecastWindow
  import opened BaseViewModel

  datatype UiState = UiState(
    isCurrentWeatherLoading: bool,
    isForecastLoading: bool,
    currentWeatherData: Option<WeatherData>,
    forecastData: seq<WeatherForecast>,
    currentWeatherError: Option<string>,
    forecastError: Option<string>,
    hasLocation: bool,
    shouldAutoNavigate: bool)

  /** `WeatherDetailsUiState()` with its default arguments. */
  function DefaultUiState(): UiState {
    UiState(false, false, None, [], None, None, false, true)
  }

  datatype WeatherDetailsAction = NavigateBack | NavigateToManageLocations(fromLocationIssue: bool)

  // ---------------------------------------------------------------------------
  // The derived getters of the state

  predicate HasCurrentWeatherError(s: UiState) {
    s.currentWeatherError.Some?
  }

  predicate HasForecastError(s: UiState) {
    s.forecastError.Some?
  }

  predicate ShowNoLocationState(s: UiState) {
    !s.hasLocation && !s.isCurrentWeatherLoading && !HasCurrentWeatherError(s)
  }

  /** `weatherData`: the current weather with the separately loaded forecast list. */
  function WeatherDataView(s: UiState): (r: Option<WeatherData>)
    ensures r.None? <==> s.currentWeatherData.None?
    ensures r.Some? ==> r.value.location == s.currentWeatherData.value.location
    ensures r.Some? ==> r.value.currentWeather == s.currentWeatherData.value.currentWeather
    ensures r.Some? ==> r.value.forecast == s.forecastData
  {
    match s.currentWeatherData
    case None => None
    case Some(d) => Some(d.(forecast := s.forecastData))
  }

  // ---------------------------------------------------------------------------
  // The folds

  /** The fields the forecast fold owns are equal in `s` and `t`. */
  predicate SameForecastPart(s: UiState, t: UiState) {
    t.isForecastLoading == s.isForecastLoading && t.forecastData == s.forecastData && t.forecastError == s.forecastError
  }

  /** The fields the current-weather fold owns are equal in `s` and `t`. */
  predicate SameCurrentPart(s: UiState, t: UiState) {
    && t.isCurrentWeatherLoading == s.isCurrentWeatherLoading
    && t.currentWeatherData == s.currentWeatherData
    && t.currentWeatherError == s.currentWeatherError
  }

  predicate SameLocationPart(s: UiState, t: UiState) {
    t.hasLocation == s.hasLocation && t.shouldAutoNavigate == s.shouldAutoNavigate
  }

  /**
    One result of the weather use case folded into the state (`loadWeatherData`).
    The `?: "Failed to load current weather"` fallback never applies: the message of
    an `AppError` is a non-null string.
   */
  function CurrentWeatherStep(s: UiState, r: Result<WeatherData>): (t: UiState)
    ensures SameForecastPart(s, t) && SameLocationPart(s, t)
    ensures t.isCurrentWeatherLoading <==> r.Loading?
    ensures !r.Success? ==> t.currentWeatherData == s.currentWeatherData
    ensures r.Success? ==> t.currentWeatherData == Some(r.data)
    ensures !r.Error? ==> t.currentWeatherError.None?
    ensures r.Error? ==> t.currentWeatherError == Some(r.appError.message)
  {
    match r
    case Loading => s.(isCurrentWeatherLoading := true, currentWeatherError := None)
    case Success(d) => s.(isCurrentWeatherLoading := false, currentWeatherData := Some(d), currentWeatherError := None)
    case Error(e) => s.(isCurrentWeatherLoading := false, currentWeatherError := Some(e.message))
  }

  /**
    The getters after a current-weather result: the error flag is set exactly by an
    Error, the forecast flag is untouched, and the no-location screen shows exactly
    after a Success when there is no location.
   */
  lemma CurrentStepScreenFlags(s: UiState, r: Result<WeatherData>)
    ensures HasCurrentWeatherError(CurrentWeatherStep(s, r)) <==> r.Error?
    ensures HasForecastError(CurrentWeatherStep(s, r)) == HasForecastError(s)
    ensures ShowNoLocationState(CurrentWeatherStep(s, r)) <==> !s.hasLocation && r.Success?
  {
  }

  /** The getters after a forecast result: only the forecast error flag can change, set exactly by an Error. */
  lemma ForecastStepScreenFlags(s: UiState, r: Result<WeatherData>)
    ensures HasForecastError(ForecastStep(s, r)) <==> r.Error?
    ensures HasCurrentWeatherError(ForecastStep(s, r)) == HasCurrentWeatherError(s)
    ensures ShowNoLocationState(ForecastStep(s, r)) == ShowNoLocationState(s)
  {
  }

  /** One result of the forecast use case folded into the state (`loadFiveDayForecast`). */
  function ForecastStep(s: UiState, r: Result<WeatherData>): (t: UiState)
    ensures SameCurrentPart(s, t) && SameLocationPart(s, t)
    ensures t.isForecastLoading <==> r.Loading?
    ensures !r.Success? ==> t.forecastData == s.forecastData
    ensures r.Success? ==> t.forecastData == r.data.forecast
    ensures !r.Error? ==> t.forecastError.None?
    ensures r.Error? ==> t.forecastError == Some(r.appError.message)
  {
    match r
    case Loading => s.(isForecastLoading := true, forecastError := None)
    case Success(d) => s.(isForecastLoading := false, forecastData := d.forecast, forecastError := None)
    case Error(e) => s.(isForecastLoading := false, forecastError := Some(e.message))
  }

  /** The two folds touch disjoint fields, so their steps commute. */
  lemma StepsCommute(s: UiState, c: Result<WeatherData>, f: Result<WeatherData>)
    ensures CurrentWeatherStep(ForecastStep(s, f), c) == ForecastStep(CurrentWeatherStep(s, c), f)
  {
  }

  lemma {:induction false} CurrentStepThroughForecasts(s: UiState, c: Result<WeatherData>, fs: seq<Result<WeatherData>>)
    ensures CurrentWeatherStep(FoldLeft(ForecastStep, s, fs), c) == FoldLeft(ForecastStep, CurrentWeatherStep(s, c), fs)
    decreases |fs|
  {
    if fs != [] {
      var init := fs[..|fs| - 1];
      CurrentStepThroughForecasts(s, c, init);
      StepsCommute(FoldLeft(ForecastStep, s, init), c, fs[|fs| - 1]);
    }
  }

  /** A result of either of the two loads that `refreshWeatherData` launches side by side. */
  datatype LoadEvent = CurrentEvent(result: Result<WeatherData>) | ForecastEvent(result: Result<WeatherData>)

  function EventStep(s: UiState, e: LoadEvent): UiState {
    match e
    case CurrentEvent(r) => CurrentWeatherStep(s, r)
    case ForecastEvent(r) => ForecastStep(s, r)
  }

  function CurrentsOf(es: seq<LoadEvent>): seq<Result<WeatherData>>
    decreases |es|
  {
    if es == [] then []
    else CurrentsOf(es[..|es| - 1]) + (if es[|es| - 1].CurrentEvent? then [es[|es| - 1].result] else [])
  }

  function ForecastsOf(es: seq<LoadEvent>): seq<Result<WeatherData>>
    decreases |es|
  {
    if es == [] then []
    else ForecastsOf(es[..|es| - 1]) + (if es[|es| - 1].ForecastEvent? then [es[|es| - 1].result] else [])
  }

  /**
    However the results of the two concurrent loads interleave, the final state is the
    one reached by folding all current-weather results, then all forecast results.
   */
  lemma {:induction false} InterleavingIrrelevant(s: UiState, es: seq<LoadEvent>)
    ensures FoldLeft(EventStep, s, es) == FoldLeft(ForecastStep, FoldLeft(CurrentWeatherStep, s, CurrentsOf(es)), ForecastsOf(es))
    decreases |es|
  {
    if es != [] {
      var init := es[..|es| - 1];
      var e := es[|es| - 1];
      InterleavingIrrelevant(s, init);
      var cs := CurrentsOf(init);
      var fs := ForecastsOf(init);
      if e.CurrentEvent? {
        assert ForecastsOf(es) == fs + [];
        assert fs + [] == fs;
        FoldLeftSnoc(CurrentWeatherStep, s, cs, e.result);
        CurrentStepThroughForecasts(FoldLeft(CurrentWeatherStep, s, cs), e.result, fs);
      } else {
        assert CurrentsOf(es) == cs + [];
        assert cs + [] == cs;
        FoldLeftSnoc(ForecastStep, FoldLeft(CurrentWeatherStep, s, cs), fs, e.result);
      }
    }
  }

  /**
    After a forecast stream that ends with a value, the screen shows that value's
    windowed forecast. The requires are what `GetFiveDayForecast` ensures of its
    result when the upstream flow ends normally.
   */
  lemma ShownForecastIsWindowed(s: UiState, upstream: Flow<WeatherData>, rs: seq<Result<WeatherData>>)
    requires |upstream.values| >= 1 && upstream.failure.None?
    requires |rs| == |upstream.values| + 1
    requires forall i :: 1 <= i <= |upstream.values| ==>
      rs[i].Success? && rs[i].data.forecast == Window(upstream.values[i - 1].forecast)
    ensures var t := FoldLeft(ForecastStep, s, rs);
      && t.forecastData == Window(upstream.values[|upstream.values| - 1].forecast)
      && !t.isForecastLoading && t.forecastError.None?
  {
    var n := |upstream.values|;
    LastForecastSuccessShown(s, rs, rs[n].data.forecast);
  }

  lemma LastForecastSuccessShown(s: UiState, rs: seq<Result<WeatherData>>, w: seq<WeatherForecast>)
    requires |rs| >= 1 && rs[|rs| - 1].Success? && rs[|rs| - 1].data.forecast == w
    ensures var t := FoldLeft(ForecastStep, s, rs);
      t.forecastData == w && !t.isForecastLoading && t.forecastError.None?
  {
  }

  /** A forecast stream that fails leaves the failure's message on screen and stops loading. */
  lemma FailedForecastShowsError(s: UiState, upstream: Flow<WeatherData>)
    requires upstream.failure.Some?
    ensures var t := FoldLeft(ForecastStep, s, GetFiveDayForecast(upstream));
      && t.forecastError == Some(upstream.failure.value.message.GetOr(""))
      && !t.isForecastLoading
  {
  }

  lemma {:induction false} ForecastFoldKeepsCurrentPart(s: UiState, rs: seq<Result<WeatherData>>)
    ensures SameCurrentPart(s, FoldLeft(ForecastStep, s, rs)) && SameLocationPart(s, FoldLeft(ForecastStep, s, rs))
    decreases |rs|
  {
    if rs != [] {
      ForecastFoldKeepsCurrentPart(s, rs[..|rs| - 1]);
    }
  }

  lemma {:induction false} CurrentFoldKeepsForecastPart(s: UiState, rs: seq<Result<WeatherData>>)
    ensures SameForecastPart(s, FoldLeft(CurrentWeatherStep, s, rs)) && SameLocationPart(s, FoldLeft(CurrentWeatherStep, s, rs))
    decreases |rs|
  {
    if rs != [] {
      CurrentFoldKeepsForecastPart(s, rs[..|rs| - 1]);
    }
  }

  // ---------------------------------------------------------------------------
  // Navigation and the no-location branch

  /**
    The no-permission branch of `useCurrentDeviceLocation` (the same code runs when the
    device location is null or fails): navigate away while `shouldAutoNavigate` holds,
    otherwise stop loading and report that there is no location.
   */
  function NoLocationStep(s: UiState): (r: (UiState, Option<WeatherDetailsAction>))
    ensures s.shouldAutoNavigate ==> r.0 == s && r.1 == Some(NavigateToManageLocations(true))
    ensures !s.shouldAutoNavigate ==> r.1.None?
    ensures !s.shouldAutoNavigate ==> SameForecastPart(s, r.0) && !r.0.hasLocation && !r.0.isCurrentWeatherLoading
    ensures !s.shouldAutoNavigate ==>
      r.0.currentWeatherData == s.currentWeatherData && r.0.currentWeatherError == s.currentWeatherError
    ensures !s.shouldAutoNavigate ==> (ShowNoLocationState(r.0) <==> !HasCurrentWeatherError(s))
  {
    if s.shouldAutoNavigate then (s, Some(NavigateToManageLocations(true)))
    else (s.(isCurrentWeatherLoading := false, hasLocation := false), None)
  }

  /** The NavigateToManageLocations intent: no more automatic navigation, and a manual one. */
  function NavigateToManageLocationsStep(s: UiState): (r: (UiState, WeatherDetailsAction))
    ensures !r.0.shouldAutoNavigate && r.1 == NavigateToManageLocations(false)
    ensures SameCurrentPart(s, r.0) && SameForecastPart(s, r.0) && r.0.hasLocation == s.hasLocation
  {
    (s.(shouldAutoNavigate := false), NavigateToManageLocations(false))
  }

  /** Once the user has navigated by hand, a missing location no longer navigates automatically. */
  lemma NoAutoNavigationAfterManual(s: UiState)
    ensures NoLocationStep(NavigateToManageLocationsStep(s).0).1.None?
  {
  }

  // ---------------------------------------------------------------------------
  // The view model

  class WeatherDetailsViewModel {
    var uiState: UiState
    /** The location shown, from the navigation arguments or the saved current location. */
    var currentLocation: Option<SavedLocation>
    const base: ComposeBaseViewModel<WeatherDetailsAction>

    ghost predicate Valid()
      reads this, base
    {
      base.Valid()
    }

    /**
      The part of `init` that does not load: with navigation arguments the location is
      known and `hasLocation` is set (the caller then refreshes).
     */
    constructor (args: Option<SavedLocation>)
      ensures Valid() && fresh(base) && base.viewAction == []
      ensures currentLocation == args
      ensures uiState == DefaultUiState().(hasLocation := args.Some?)
    {
      base := new ComposeBaseViewModel();
      currentLocation := args;
      uiState := DefaultUiState().(hasLocation := args.Some?);
    }

    /** `collect { result -> _uiState.update { step(it, result) } }` over a finite stream. */
    method Collect(step: (UiState, Result<WeatherData>) -> UiState, results: seq<Result<WeatherData>>)
      modifies this
      ensures currentLocation == old(currentLocation)
      ensures uiState == FoldLeft(step, old(uiState), results)
    {
      var i := 0;
      while i < |results|
        invariant 0 <= i <= |results|
        invariant currentLocation == old(currentLocation)
        invariant uiState == FoldLeft(step, old(uiState), results[..i])
      {
        FoldLeftSnoc(step, old(uiState), results[..i], results[i]);
        assert results[..i + 1] == results[..i] + [results[i]];
        uiState := step(uiState, results[i]);
        i := i + 1;
      }
      assert results[..|results|] == results;
    }

    /**
      `loadWeatherData()`: with a location, every result of the weather use case for its
      coordinates is folded into the state in order; without one, nothing happens.
     */
    method LoadWeatherData(weather: (Double, Double) -> seq<Result<WeatherData>>)
      modifies this
      ensures currentLocation == old(currentLocation)
      ensures old(currentLocation).None? ==> uiState == old(uiState)
      ensures old(currentLocation).Some? ==>
        uiState == FoldLeft(CurrentWeatherStep, old(uiState),
                            weather(old(currentLocation).value.latitude, old(currentLocation).value.longitude))
    {
      if currentLocation.Some? {
        var location := currentLocation.value;
        Collect(CurrentWeatherStep, weather(location.latitude, location.longitude));
      }
    }

    /**
      `loadFiveDayForecast()`: the forecast use case over the repository's forecast flow
      for the location's coordinates, folded into the state in order.
     */
    method LoadFiveDayForecast(forecastUpstream: (Double, Double) -> Flow<WeatherData>)
      modifies this
      ensures currentLocation == old(currentLocation)
      ensures old(currentLocation).None? ==> uiState == old(uiState)
      ensures old(currentLocation).Some? ==>
        uiState == FoldLeft(ForecastStep, old(uiState),
                            GetFiveDayForecast(forecastUpstream(old(currentLocation).value.latitude,
                                                                old(currentLocation).value.longitude)))
    {
      if currentLocation.Some? {
        var location := currentLocation.value;
        var results := GetFiveDayForecast(forecastUpstream(location.latitude, location.longitude));
        Collect(ForecastStep, results);
      }
    }

    /**
      `refreshWeatherData()`: both loads. The source launches them concurrently; the
      final state is the same for every interleaving of their results.
     */
    method RefreshWeatherData(weather: (Double, Double) -> seq<Result<WeatherData>>,
                              forecastUpstream: (Double, Double) -> Flow<WeatherData>)
      modifies this
      ensures currentLocation == old(currentLocation)
      ensures old(currentLocation).None? ==> uiState == old(uiState)
      ensures old(currentLocation).Some? ==>
        var l := old(currentLocation).value;
        forall es :: CurrentsOf(es) == weather(l.latitude, l.longitude)
                  && ForecastsOf(es) == GetFiveDayForecast(forecastUpstream(l.latitude, l.longitude))
                  ==> uiState == FoldLeft(EventStep, old(uiState), es)
    {
      LoadWeatherData(weather);
      LoadFiveDayForecast(forecastUpstream);
      forall es | true
        ensures FoldLeft(EventStep, old(uiState), es)
             == FoldLeft(ForecastStep, FoldLeft(CurrentWeatherStep, old(uiState), CurrentsOf(es)), ForecastsOf(es))
      {
        InterleavingIrrelevant(old(uiState), es);
      }
    }

    /** The NavigateToManageLocations intent. */
    method NavigateToManageLocations()
      requires Valid()
      modifies this, base
      ensures Valid() && currentLocation == old(currentLocation)
      ensures (uiState, base.viewAction) == (NavigateToManageLocationsStep(old(uiState)).0,
                                            [ScreenAction(NavigateToManageLocationsStep(old(uiState)).1)])
      ensures !uiState.shouldAutoNavigate && base.viewAction == [ScreenAction(WeatherDetailsAction.NavigateToManageLocations(false))]
    {
      var next := NavigateToManageLocationsStep(uiState);
      uiState := next.0;
      var _ := base.SendAction(next.1);
    }

    /** The NavigateBack intent. */
    method NavigateBack()
      requires Valid()
      modifies base
      ensures Valid()
      ensures base.viewAction == [ScreenAction(WeatherDetailsAction.NavigateBack)]
    {
      var _ := base.SendAction(WeatherDetailsAction.NavigateBack);
    }

    /** `useCurrentDeviceLocation()` without location permission (or without a location). */
    method HandleNoLocation()
      requires Valid()
      modifies this, base
      ensures Valid() && currentLocation == old(currentLocation)
      ensures uiState == NoLocationStep(old(uiState)).0
      ensures NoLocationStep(old(uiState)).1.Some? ==>
        base.viewAction == [ScreenAction(NoLocationStep(old(uiState)).1.value)]
      ensures NoLocationStep(old(uiState)).1.None? ==> base.viewAction == old(base.viewAction)
    {
      var next := NoLocationStep(uiState);
      uiState := next.0;
      if next.1.Some? {
        var _ := base.SendAction(next.1.value);
      }
    }
  }
}
