# syarahweather domain layer in Dafny

This project models the domain layer of the syarahweather Android weather app and proves properties of it:

- the `Result` wrapper and its flow combinators;
- the five-day forecast window;
- the rules for saving a location: the cap of five saved locations, and the duplicate test by id or by coordinates;
- the two-key location store;
- the one-slot action mailbox shared by the view models;
- the state reducers of the weather-details, manage-locations and places-search screens;
- the mappers from weather-service responses to domain records.

How the Kotlin code is represented:

- **Flows.** A Kotlin `Flow<T>` is a finite sequence of values followed by an optional terminal exception (`Results.Flow`). A `collect { _uiState.update { … } }` handler is a left fold of a step function over the stream (`Collections.FoldLeft`).
- **View models.** Each view model is a class. It holds the screen state and the shared `ComposeBaseViewModel` mailbox, and each handler is a method. The methods are proved against the pure step functions, and the properties are proved about those functions.
- **The store.** `LocationDataSourceImpl` is a class with two preference keys. Each key is absent, unreadable, or holds a value. Save is an upsert by id, remove filters by id, and set and clear overwrite whole keys. A failed DataStore edit is the parameter `editFails`.
- **Numbers.** Kotlin `Int` and `Long` are 32-bit and 64-bit subset types: `permissionRequestCount + 1` and `dt * 1000` wrap as on the JVM. `Double` values are reals compared by equality.
- **Parameters.** The repositories, the use cases the view models call, the clock (`now`) and the device's permission answer are all parameters.

Where the code and its description differ, the model follows the code:

- The `?: "Failed to load …"` fallbacks in `WeatherDetailsViewModel` can never fire, because `AppError.message` is a non-null `String`. The model shows the message itself.
- `removeLocation` shows "Location removed" after any `Success`, including `Success(false)`, which the store emits when its edit fails.
- Four cases of `GetFiveDayForecastUseCaseTest` disagree with the code, and the model does not follow them:
  - the cases at lines 140-141, 170-171 and 201-202 take the first item of the stream to be the `Success`, but `toResult` emits `Loading` first (`Result.kt:21`), which `GetFiveDayForecast` states;
  - lines 191-203 also expect three entries, but the first three samples span only two days;
  - lines 213-214 throw when the repository is called, before `toResult` could turn the exception into an `Error`.

## Model

Source paths are relative to the repository root.

| member | source | states |
|---|---|---|
| Kotlin.WrapInt | app/src/main/java/com/kazimi/syarahweather/ui/screens/managelocations/ManageLocationsViewModel.kt:130 | 32-bit `Int` arithmetic: the exact value when it is in range, otherwise a value congruent to it modulo 2^32 |
| Kotlin.WrapLong | app/src/main/java/com/kazimi/syarahweather/data/Mapper.kt:33 | 64-bit `Long` arithmetic: the exact value when it is in range, otherwise a value congruent to it modulo 2^64 |
| Kotlin.IntToString | app/src/main/java/com/kazimi/syarahweather/data/Mapper.kt:15 | `Int.toString()` is non-empty and starts with '-' exactly for negative numbers |
| Kotlin.IntToStringRoundTrip | app/src/main/java/com/kazimi/syarahweather/data/Mapper.kt:15 | decimal rendering loses nothing: parsing it back gives the number |
| Kotlin.IntToStringInjective | app/src/main/java/com/kazimi/syarahweather/data/Mapper.kt:44 | different numbers give different id strings |
| Domain.ToAppError | app/src/main/java/com/kazimi/syarahweather/domain/common/error/AppError.kt:26-32 | a throwable becomes an UNKNOWN error that keeps the throwable, has no code or params, and carries the message, or "" when the message is null |
| Domain.ErrorOfType | app/src/main/java/com/kazimi/syarahweather/domain/common/error/AppError.kt:3-9 | an error of the given type with every other field at its default |
| Domain.ToSavedLocation | app/src/main/java/com/kazimi/syarahweather/domain/model/PlaceSearchResult.kt:12-22 | id = placeId; name, latitude, longitude, country and state are copied, including nulls; never the current location; added at the clock reading |
| Domain.ToSavedLocationKeepsAllButAddress | app/src/main/java/com/kazimi/syarahweather/domain/model/PlaceSearchResult.kt:12-22 | two places that give the same saved location differ at most in their address |
| Collections.Take | app/src/main/java/com/kazimi/syarahweather/domain/usecase/weatherdetails/GetFiveDayForecastUseCase.kt:32 | `take(n)` is a prefix of length min(n, size) |
| Collections.PrefixOfSubsequence | app/src/main/java/com/kazimi/syarahweather/domain/usecase/weatherdetails/GetFiveDayForecastUseCase.kt:31-32 | a prefix of a subsequence is a subsequence |
| Collections.FoldLeftSnoc | app/src/main/java/com/kazimi/syarahweather/domain/common/Result.kt:18-26 | handling one more element of a stream is one more step |
| Collections.FoldLeftAppend | app/src/main/java/com/kazimi/syarahweather/domain/common/Result.kt:18-26 | handling two stream segments one after the other is handling their concatenation |
| Results.MapFlow | app/src/main/java/com/kazimi/syarahweather/domain/usecase/weatherdetails/GetFiveDayForecastUseCase.kt:27-35 | `flow.map(f)` keeps the number of values and the failure, and maps each value |
| Results.Successes | app/src/main/java/com/kazimi/syarahweather/domain/common/Result.kt:20 | one Success per upstream value, in order |
| Results.Terminal | app/src/main/java/com/kazimi/syarahweather/domain/common/Result.kt:22-25 | nothing when the flow ends normally; a single `Error(toAppError(e))` when it fails with e |
| Results.ToResult | app/src/main/java/com/kazimi/syarahweather/domain/common/Result.kt:18-26 | Loading first, then `Success(v_i)` for each value, then, after a failure, a final UNKNOWN error carrying the message |
| Results.CatchError | app/src/main/java/com/kazimi/syarahweather/domain/common/Result.kt:28-35 | one Success per value, then the mapped error after a failure, and never Loading |
| Results.ToResultIsLoadingThenCatchError | app/src/main/java/com/kazimi/syarahweather/domain/common/Result.kt:18-35 | `toResult` is Loading followed by `catchError` |
| Results.ToResultWellFormed | app/src/main/java/com/kazimi/syarahweather/domain/common/Result.kt:18-26 | `toResult` emits Loading exactly once, first, and an Error only last |
| Results.IsSuccess | app/src/main/java/com/kazimi/syarahweather/domain/common/Result.kt:57 | `isSuccess()` holds exactly for the result that is neither Loading nor Error |
| Results.IsError | app/src/main/java/com/kazimi/syarahweather/domain/common/Result.kt:59 | `isError()` never holds together with `isSuccess()`, and a result satisfies neither exactly when it is Loading |
| Results.GetResult | app/src/main/java/com/kazimi/syarahweather/domain/common/Result.kt:37-43 | the data exactly for a Success, null otherwise |
| Results.GetOrNull | app/src/main/java/com/kazimi/syarahweather/domain/common/Result.kt:61-65 | the data exactly for a Success, null for Loading and Error |
| Results.GetResultAgreesWithGetOrNull | app/src/main/java/com/kazimi/syarahweather/domain/common/Result.kt:37-65 | `getResult` and `getOrNull` agree on every input |
| Results.ExceptionOrNull | app/src/main/java/com/kazimi/syarahweather/domain/common/Result.kt:67-71 | the error exactly for an Error, null for Loading and Success |
| Results.IsSuccessThen | app/src/main/java/com/kazimi/syarahweather/domain/common/Result.kt:45-49 | the callback runs, on the data, exactly when the value is a Success; otherwise nothing changes |
| ForecastWindow.DayKeyIsFirstField | app/src/main/java/com/kazimi/syarahweather/domain/usecase/weatherdetails/GetFiveDayForecastUseCase.kt:31 | the day key is the prefix before the first space, or the whole string when there is none |
| ForecastWindow.DayKeyOfTimestamp | app/src/main/java/com/kazimi/syarahweather/domain/usecase/weatherdetails/GetFiveDayForecastUseCase.kt:31 | the day key of "day time" is the day |
| ForecastWindow.FirstIndex | app/src/main/java/com/kazimi/syarahweather/domain/usecase/weatherdetails/GetFiveDayForecastUseCase.kt:31 | the first position whose sample has a given day key |
| ForecastWindow.KeyInKeys | app/src/main/java/com/kazimi/syarahweather/domain/usecase/weatherdetails/GetFiveDayForecastUseCase.kt:31 | every sample's day key is among the input's keys |
| ForecastWindow.DistinctFromKeys | app/src/main/java/com/kazimi/syarahweather/domain/usecase/weatherdetails/GetFiveDayForecastUseCase.kt:31 | `distinctBy` keeps one sample for each day key not yet seen, and only those |
| ForecastWindow.DistinctFromFirstWins | app/src/main/java/com/kazimi/syarahweather/domain/usecase/weatherdetails/GetFiveDayForecastUseCase.kt:31 | each kept sample is the first input sample of its day |
| ForecastWindow.DistinctFromOrder | app/src/main/java/com/kazimi/syarahweather/domain/usecase/weatherdetails/GetFiveDayForecastUseCase.kt:31 | kept samples appear in the order in which their days first occur in the input |
| ForecastWindow.DistinctFromSubsequence | app/src/main/java/com/kazimi/syarahweather/domain/usecase/weatherdetails/GetFiveDayForecastUseCase.kt:31 | `distinctBy` yields a subsequence of its input |
| ForecastWindow.UniqueKeysCount | app/src/main/java/com/kazimi/syarahweather/domain/usecase/weatherdetails/GetFiveDayForecastUseCase.kt:31-32 | with one sample per day, the number of samples is the number of days |
| ForecastWindow.DistinctFromUnique | app/src/main/java/com/kazimi/syarahweather/domain/usecase/weatherdetails/GetFiveDayForecastUseCase.kt:31 | an input with one sample per day passes `distinctBy` unchanged |
| ForecastWindow.PrefixUniqueKeys | app/src/main/java/com/kazimi/syarahweather/domain/usecase/weatherdetails/GetFiveDayForecastUseCase.kt:32 | `take` keeps the one-sample-per-day property |
| ForecastWindow.WindowSize | app/src/main/java/com/kazimi/syarahweather/domain/usecase/weatherdetails/GetFiveDayForecastUseCase.kt:31-32 | at most five entries with pairwise distinct day keys, exactly min(5, number of distinct days) of them |
| ForecastWindow.WindowSubsequence | app/src/main/java/com/kazimi/syarahweather/domain/usecase/weatherdetails/GetFiveDayForecastUseCase.kt:30-32 | the window is a subsequence of the input forecast |
| ForecastWindow.WindowFirstWins | app/src/main/java/com/kazimi/syarahweather/domain/usecase/weatherdetails/GetFiveDayForecastUseCase.kt:31-32 | each entry is the first sample of its day; entries follow first occurrence; a day left out comes after five kept days |
| ForecastWindow.WindowIdempotent | app/src/main/java/com/kazimi/syarahweather/domain/usecase/weatherdetails/GetFiveDayForecastUseCase.kt:31-32 | windowing the window changes nothing |
| ForecastWindow.WindowEmpty | app/src/main/java/com/kazimi/syarahweather/domain/usecase/weatherdetails/GetFiveDayForecastUseCase.kt:31-32 | an empty forecast gives an empty window |
| ForecastWindow.WindowOneDay | app/src/main/java/com/kazimi/syarahweather/domain/usecase/weatherdetails/GetFiveDayForecastUseCase.kt:31-32 | samples that all fall on the same day give the first sample alone |
| ForecastWindow.DistinctFromCons | app/src/main/java/com/kazimi/syarahweather/domain/usecase/weatherdetails/GetFiveDayForecastUseCase.kt:31 | a sample of a day already seen is dropped; one of a new day is kept and its day becomes seen |
| ForecastWindow.KeyOfSample | app/src/main/java/com/kazimi/syarahweather/domain/usecase/weatherdetails/GetFiveDayForecastUseCase.kt:31 | a sample dated "day time" has day key `day` |
| ForecastWindow.DistinctOfFiveNewDays | app/src/main/java/com/kazimi/syarahweather/domain/usecase/weatherdetails/GetFiveDayForecastUseCase.kt:31 | five samples of five new days are all kept |
| ForecastWindow.WindowOfSevenSamples | app/src/main/java/com/kazimi/syarahweather/domain/usecase/weatherdetails/GetFiveDayForecastUseCase.kt:31-32 | two samples of one day followed by five of five new days give the first sample and the next four |
| ForecastWindow.WindowWorkedExample | app/src/test/java/com/kazimi/syarahweather/domain/usecase/weatherdetails/GetFiveDayForecastUseCaseTest.kt:148-155 | the test's seven samples give the 01-01 12:00, 01-02, 01-03, 01-04 and 01-05 entries, in that order |
| ForecastWindow.WithWindowedForecast | app/src/main/java/com/kazimi/syarahweather/domain/usecase/weatherdetails/GetFiveDayForecastUseCase.kt:34 | only the forecast is replaced, by its window; location and current weather are unchanged |
| ForecastWindow.GetFiveDayForecast | app/src/main/java/com/kazimi/syarahweather/domain/usecase/weatherdetails/GetFiveDayForecastUseCase.kt:25-37 | a well-formed result stream: Loading, then one Success per upstream value with the same location and current weather and the forecast windowed, then the mapped error after a failure |
| LocationStore.WithoutIdAppend | app/src/main/java/com/kazimi/syarahweather/data/datasource/local/LocationDataSourceImpl.kt:67 | `filterNot` by id distributes over concatenation |
| LocationStore.WithoutIdSpec | app/src/main/java/com/kazimi/syarahweather/data/datasource/local/LocationDataSourceImpl.kt:67 | after filtering no entry has the id; the other entries are all kept, in their order |
| LocationStore.WithoutAbsentId | app/src/main/java/com/kazimi/syarahweather/data/datasource/local/LocationDataSourceImpl.kt:67-71 | removing an absent id leaves the list unchanged |
| LocationStore.CountIdZero | app/src/main/java/com/kazimi/syarahweather/data/datasource/local/LocationDataSourceImpl.kt:45 | an id held by no entry is counted zero times |
| LocationStore.UniqueIdsCount | app/src/main/java/com/kazimi/syarahweather/data/datasource/local/LocationDataSourceImpl.kt:45-48 | in a list with unique ids, an id that is present occurs once |
| LocationStore.UpsertSpec | app/src/main/java/com/kazimi/syarahweather/data/datasource/local/LocationDataSourceImpl.kt:45-48 | after saving l, exactly one entry has l's id; that entry is l and it is last; every other id's entries are kept, in order |
| LocationStore.UpsertExistingKeepsLength | app/src/main/java/com/kazimi/syarahweather/data/datasource/local/LocationDataSourceImpl.kt:45-48 | saving an id already present once keeps the length |
| LocationStore.UpsertNewAppends | app/src/main/java/com/kazimi/syarahweather/data/datasource/local/LocationDataSourceImpl.kt:45-48 | saving a new id appends the location |
| LocationStore.UpsertKeepsIdsUnique | app/src/main/java/com/kazimi/syarahweather/data/datasource/local/LocationDataSourceImpl.kt:45-48 | saving keeps the ids unique |
| LocationStore.WithoutIdKeepsIdsUnique | app/src/main/java/com/kazimi/syarahweather/data/datasource/local/LocationDataSourceImpl.kt:67 | removal keeps the ids unique |
| LocationStore.WithoutIdMembers | app/src/main/java/com/kazimi/syarahweather/data/datasource/local/LocationDataSourceImpl.kt:67 | every entry left after removal comes from the input |
| LocationStore.RemoveAll | app/src/main/java/com/kazimi/syarahweather/data/datasource/local/LocationDataSourceImpl.kt:42-45 | the in-place `removeAll` on the copied list leaves exactly the filtered list |
| LocationStore.LocationDataSource.constructor | app/src/main/java/com/kazimi/syarahweather/data/datasource/local/LocationDataSourceImpl.kt:27-28 | a fresh store holds neither key |
| LocationStore.LocationDataSource.GetAllSavedLocations | app/src/main/java/com/kazimi/syarahweather/data/datasource/local/LocationDataSourceImpl.kt:30-35 | the stored list, or the empty list when the key is missing, blank or unreadable |
| LocationStore.LocationDataSource.GetCurrentLocation | app/src/main/java/com/kazimi/syarahweather/data/datasource/local/LocationDataSourceImpl.kt:90-95 | the stored location exactly when one is stored, null otherwise |
| LocationStore.LocationDataSource.SaveLocation | app/src/main/java/com/kazimi/syarahweather/data/datasource/local/LocationDataSourceImpl.kt:37-60 | on success the list becomes the upsert of the old list, and true is emitted; a failed edit changes nothing and emits false; the current-location key is untouched |
| LocationStore.LocationDataSource.RemoveLocation | app/src/main/java/com/kazimi/syarahweather/data/datasource/local/LocationDataSourceImpl.kt:62-74 | on success the list loses the entries of that id, and true is emitted; a failed edit changes nothing and emits false |
| LocationStore.LocationDataSource.SetCurrentLocation | app/src/main/java/com/kazimi/syarahweather/data/datasource/local/LocationDataSourceImpl.kt:77-88 | only the current-location key is overwritten, and later reads return the location; the saved list is untouched |
| LocationStore.LocationDataSource.ClearAllLocations | app/src/main/java/com/kazimi/syarahweather/data/datasource/local/LocationDataSourceImpl.kt:97-107 | both keys are removed, so later reads give the empty list and no current location; a failed edit changes nothing |
| LocationUseCases.FindConflict | app/src/main/java/com/kazimi/syarahweather/domain/usecase/managelocation/SaveNewLocationUseCase.kt:35-38 | null exactly when no saved entry has the same id or the same coordinates; otherwise the first such entry |
| LocationUseCases.SaveRejection | app/src/main/java/com/kazimi/syarahweather/domain/usecase/managelocation/SaveNewLocationUseCase.kt:26-43 | no rejection exactly when there is room and no conflict; a full list gives MAX_EXCEEDED with params [5], even for a duplicate; otherwise ALREADY_EXISTS |
| LocationUseCases.SaveNewLocationResults | app/src/main/java/com/kazimi/syarahweather/domain/usecase/managelocation/SaveNewLocationUseCase.kt:18-56 | Loading first; a failed read gives SAVE_FAILED with the message; the cap, then the duplicate, give their error; otherwise the write's Boolean follows its own Loading; the result is a Success exactly when both checks pass |
| LocationUseCases.CanAddMoreLocations | app/src/main/java/com/kazimi/syarahweather/domain/usecase/managelocation/CanAddMoreLocationsUseCase.kt:15-18 | a well-formed stream: Loading, then `Success(size < 5)` per list, which is true exactly when saving a location would not hit the cap |
| LocationUseCases.AcceptedSaveAppends | app/src/main/java/com/kazimi/syarahweather/domain/usecase/managelocation/SaveNewLocationUseCase.kt:35-48 | an accepted save deletes nothing in the upsert: the list grows by one and stays within the cap |
| LocationUseCases.AcceptedSaveKeepsValid | app/src/main/java/com/kazimi/syarahweather/domain/usecase/managelocation/SaveNewLocationUseCase.kt:26-48 | an accepted save keeps the list within the cap and free of conflicts |
| LocationUseCases.RemoveKeepsValid | app/src/main/java/com/kazimi/syarahweather/data/datasource/local/LocationDataSourceImpl.kt:67 | removal keeps the list within the cap and free of conflicts |
| LocationUseCases.SaveNewLocation | app/src/main/java/com/kazimi/syarahweather/domain/usecase/managelocation/SaveNewLocationUseCase.kt:18-56 | against the store: emits exactly the result stream above; writes only when both checks pass and the edit succeeds, appending the location; otherwise nothing changes; any list within the cap and free of conflicts stays so |
| BaseViewModel.DropOldestEmit | app/src/main/java/com/kazimi/syarahweather/core/base/viewmodel/ComposeBaseViewModel.kt:15-19 | an emit into a bounded replay cache with DROP_OLDEST: the value is appended and the oldest values are dropped to fit |
| BaseViewModel.NewestOnly | app/src/main/java/com/kazimi/syarahweather/core/base/viewmodel/ComposeBaseViewModel.kt:17-18 | with a replay of one, the cache after an emit holds the emitted action alone |
| BaseViewModel.ComposeBaseViewModel.constructor | app/src/main/java/com/kazimi/syarahweather/core/base/viewmodel/ComposeBaseViewModel.kt:15-19 | the slot starts empty |
| BaseViewModel.ComposeBaseViewModel.SendAction | app/src/main/java/com/kazimi/syarahweather/core/base/viewmodel/ComposeBaseViewModel.kt:38 | the emit always succeeds, the slot holds at most one action, and that action is the new one |
| BaseViewModel.ComposeBaseViewModel.ResetViewAction | app/src/main/java/com/kazimi/syarahweather/core/base/viewmodel/ComposeBaseViewModel.kt:40 | the slot holds the empty action, so a later subscriber receives no earlier action |
| BaseViewModel.TwoSends | app/src/main/java/com/kazimi/syarahweather/core/base/viewmodel/ComposeBaseViewModel.kt:17-18 | after two sends with no consumer, only the newer action is replayed |
| WeatherDetails.HasCurrentWeatherError | app/src/main/java/com/kazimi/syarahweather/ui/screens/weatherdetails/WeatherDetailsViewModel.kt:297 | the `hasCurrentWeatherError` getter; what sets it is stated by `CurrentStepScreenFlags` |
| WeatherDetails.HasForecastError | app/src/main/java/com/kazimi/syarahweather/ui/screens/weatherdetails/WeatherDetailsViewModel.kt:298 | the `hasForecastError` getter; what sets it is stated by `ForecastStepScreenFlags` |
| WeatherDetails.ShowNoLocationState | app/src/main/java/com/kazimi/syarahweather/ui/screens/weatherdetails/WeatherDetailsViewModel.kt:299 | the `showNoLocationState` getter; when it holds after each step is stated by the two lemmas below |
| WeatherDetails.WeatherDataView | app/src/main/java/com/kazimi/syarahweather/ui/screens/weatherdetails/WeatherDetailsViewModel.kt:301 | null exactly when there is no current weather; otherwise the current weather with its forecast replaced by the loaded forecast |
| WeatherDetails.CurrentWeatherStep | app/src/main/java/com/kazimi/syarahweather/ui/screens/weatherdetails/WeatherDetailsViewModel.kt:87-119 | loading exactly on Loading; data replaced only on Success; error cleared except on Error, which shows its message; forecast and location fields untouched |
| WeatherDetails.ForecastStep | app/src/main/java/com/kazimi/syarahweather/ui/screens/weatherdetails/WeatherDetailsViewModel.kt:121-155 | loading exactly on Loading; forecast replaced only on Success; error cleared except on Error, which shows its message; current-weather and location fields untouched |
| WeatherDetails.CurrentStepScreenFlags | app/src/main/java/com/kazimi/syarahweather/ui/screens/weatherdetails/WeatherDetailsViewModel.kt:87-119 | after a current-weather result, `hasCurrentWeatherError` holds exactly for an Error, `hasForecastError` is unchanged, and the no-location screen shows exactly after a Success with no location |
| WeatherDetails.ForecastStepScreenFlags | app/src/main/java/com/kazimi/syarahweather/ui/screens/weatherdetails/WeatherDetailsViewModel.kt:121-155 | after a forecast result, `hasForecastError` holds exactly for an Error, and `hasCurrentWeatherError` and the no-location screen are unchanged |
| WeatherDetails.StepsCommute | app/src/main/java/com/kazimi/syarahweather/ui/screens/weatherdetails/WeatherDetailsViewModel.kt:157-160 | a current-weather step and a forecast step commute |
| WeatherDetails.CurrentStepThroughForecasts | app/src/main/java/com/kazimi/syarahweather/ui/screens/weatherdetails/WeatherDetailsViewModel.kt:157-160 | a current-weather step commutes with a whole forecast fold |
| WeatherDetails.InterleavingIrrelevant | app/src/main/java/com/kazimi/syarahweather/ui/screens/weatherdetails/WeatherDetailsViewModel.kt:157-160 | however the two launched loads interleave, the final state is the current-weather fold followed by the forecast fold |
| WeatherDetails.ShownForecastIsWindowed | app/src/main/java/com/kazimi/syarahweather/ui/screens/weatherdetails/WeatherDetailsViewModel.kt:121-155 | after a forecast stream that ends with a value, the screen shows that value's windowed forecast, not loading and with no error |
| WeatherDetails.LastForecastSuccessShown | app/src/main/java/com/kazimi/syarahweather/ui/screens/weatherdetails/WeatherDetailsViewModel.kt:134-142 | a stream ending with a Success shows that Success's forecast |
| WeatherDetails.FailedForecastShowsError | app/src/main/java/com/kazimi/syarahweather/ui/screens/weatherdetails/WeatherDetailsViewModel.kt:144-151 | a failing forecast stream leaves the failure's message on screen and loading over |
| WeatherDetails.ForecastFoldKeepsCurrentPart | app/src/main/java/com/kazimi/syarahweather/ui/screens/weatherdetails/WeatherDetailsViewModel.kt:121-155 | the forecast fold changes no current-weather or location field |
| WeatherDetails.CurrentFoldKeepsForecastPart | app/src/main/java/com/kazimi/syarahweather/ui/screens/weatherdetails/WeatherDetailsViewModel.kt:87-119 | the current-weather fold changes no forecast or location field |
| WeatherDetails.NoLocationStep | app/src/main/java/com/kazimi/syarahweather/ui/screens/weatherdetails/WeatherDetailsViewModel.kt:196-209 | with auto-navigation on: the state is unchanged and NavigateToManageLocations(true) is sent; otherwise: nothing is sent, hasLocation and loading become false, and only then does the no-location state show, unless an error is shown |
| WeatherDetails.NavigateToManageLocationsStep | app/src/main/java/com/kazimi/syarahweather/ui/screens/weatherdetails/WeatherDetailsViewModel.kt:79-83 | auto-navigation is switched off and NavigateToManageLocations(false) is sent; the weather fields are unchanged |
| WeatherDetails.NoAutoNavigationAfterManual | app/src/main/java/com/kazimi/syarahweather/ui/screens/weatherdetails/WeatherDetailsViewModel.kt:79-83 | after a manual navigation, a missing location no longer navigates automatically |
| WeatherDetails.WeatherDetailsViewModel.constructor | app/src/main/java/com/kazimi/syarahweather/ui/screens/weatherdetails/WeatherDetailsViewModel.kt:52-71 | the location comes from the navigation arguments, and `hasLocation` is set exactly when there are any |
| WeatherDetails.WeatherDetailsViewModel.Collect | app/src/main/java/com/kazimi/syarahweather/ui/screens/weatherdetails/WeatherDetailsViewModel.kt:89-117 | collecting a stream leaves the fold of the step over it |
| WeatherDetails.WeatherDetailsViewModel.LoadWeatherData | app/src/main/java/com/kazimi/syarahweather/ui/screens/weatherdetails/WeatherDetailsViewModel.kt:87-119 | without a location nothing changes; otherwise the state is the current-weather fold over the stream for the location's coordinates |
| WeatherDetails.WeatherDetailsViewModel.LoadFiveDayForecast | app/src/main/java/com/kazimi/syarahweather/ui/screens/weatherdetails/WeatherDetailsViewModel.kt:121-155 | without a location nothing changes; otherwise the state is the forecast fold over the forecast use case's stream for the location's coordinates |
| WeatherDetails.WeatherDetailsViewModel.RefreshWeatherData | app/src/main/java/com/kazimi/syarahweather/ui/screens/weatherdetails/WeatherDetailsViewModel.kt:157-160 | for any interleaving of the two loads, the state is the current-weather fold followed by the forecast fold |
| WeatherDetails.WeatherDetailsViewModel.NavigateToManageLocations | app/src/main/java/com/kazimi/syarahweather/ui/screens/weatherdetails/WeatherDetailsViewModel.kt:79-83 | the intent's step applied to the state, with its action in the slot |
| WeatherDetails.WeatherDetailsViewModel.NavigateBack | app/src/main/java/com/kazimi/syarahweather/ui/screens/weatherdetails/WeatherDetailsViewModel.kt:78 | NavigateBack is in the slot |
| WeatherDetails.WeatherDetailsViewModel.HandleNoLocation | app/src/main/java/com/kazimi/syarahweather/ui/screens/weatherdetails/WeatherDetailsViewModel.kt:196-209 | the no-location step applied; its action, if any, in the slot, and otherwise the slot unchanged |
| ManageLocations.CheckStep | app/src/main/java/com/kazimi/syarahweather/ui/screens/managelocations/ManageLocationsViewModel.kt:95-109 | the device's answer is copied; rationale false; permanently denied only if it was and permission is still missing; the counter is unchanged |
| ManageLocations.GrantedStep | app/src/main/java/com/kazimi/syarahweather/ui/screens/managelocations/ManageLocationsViewModel.kt:111-119 | permission held and not permanently denied; the other fields and the counter are unchanged |
| ManageLocations.DeniedStep | app/src/main/java/com/kazimi/syarahweather/ui/screens/managelocations/ManageLocationsViewModel.kt:123-134 | permission missing; both flags copied from the intent; the counter goes up by one, and wraps to `Int.MIN_VALUE` at `Int.MAX_VALUE` |
| ManageLocations.RequestCountCountsDenials | app/src/main/java/com/kazimi/syarahweather/ui/screens/managelocations/ManageLocationsViewModel.kt:95-134 | short of overflow, the counter after any sequence of permission events has grown by the number of denials |
| ManageLocations.RequestCountNeverDecreases | app/src/main/java/com/kazimi/syarahweather/ui/screens/managelocations/ManageLocationsViewModel.kt:95-134 | short of overflow, the counter never decreases |
| ManageLocations.DenialAtIntMaxWraps | app/src/main/java/com/kazimi/syarahweather/ui/screens/managelocations/ManageLocationsViewModel.kt:130 | a denial at `Int.MAX_VALUE` makes the counter go down |
| ManageLocations.MaxFlagIsCapRejection | app/src/main/java/com/kazimi/syarahweather/ui/screens/managelocations/ManageLocationsViewModel.kt:256 | when the flag agrees with the shown list, it holds exactly when the save use case would reject for the cap |
| ManageLocations.SavedLocationsStep | app/src/main/java/com/kazimi/syarahweather/ui/screens/managelocations/ManageLocationsViewModel.kt:245-270 | loading exactly on Loading; a Success shows its list and sets the flag iff size >= 5; an Error is recorded; nothing else changes |
| ManageLocations.LoadedState | app/src/main/java/com/kazimi/syarahweather/ui/screens/managelocations/ManageLocationsViewModel.kt:245-270 | the closed form of the load keeps the flag in agreement with the list |
| ManageLocations.FoldSuccesses | app/src/main/java/com/kazimi/syarahweather/ui/screens/managelocations/ManageLocationsViewModel.kt:251-258 | folding Successes leaves the last one's effect |
| ManageLocations.LoadSavedLocationsClosedForm | app/src/main/java/com/kazimi/syarahweather/ui/screens/managelocations/ManageLocationsViewModel.kt:245-270 | the step-by-step fold of `toResult` of the saved-list flow reaches the closed form |
| ManageLocations.LoadedStateIdempotent | app/src/main/java/com/kazimi/syarahweather/ui/screens/managelocations/ManageLocationsViewModel.kt:276 | loading the same list twice shows what loading it once shows |
| ManageLocations.LoadedListShown | app/src/main/java/com/kazimi/syarahweather/ui/screens/managelocations/ManageLocationsViewModel.kt:251-258 | after a flow that ends normally, its last list is shown, flagged iff size >= 5, and loading is over |
| ManageLocations.PatchAddress | app/src/main/java/com/kazimi/syarahweather/ui/screens/managelocations/ManageLocationsViewModel.kt:298-301 | a null location stays null; a present one takes country and state from the weather and keeps every other field |
| ManageLocations.WeatherStep | app/src/main/java/com/kazimi/syarahweather/ui/screens/managelocations/ManageLocationsViewModel.kt:287-317 | loading exactly on Loading; a Success stores the weather, patches the address and clears the error; an Error is recorded; the saved list, flag and permission state are untouched |
| ManageLocations.WeatherFoldKeepsIdentity | app/src/main/java/com/kazimi/syarahweather/ui/screens/managelocations/ManageLocationsViewModel.kt:295-305 | over any weather stream, a missing current location stays missing, a present one stays the same location up to its address, and the saved list, flag and permission state are untouched |
| ManageLocations.ForwardedAction | app/src/main/java/com/kazimi/syarahweather/ui/screens/managelocations/ManageLocationsViewModel.kt:62-64 | the forwarding intents send no message; selecting a location or navigating to it sends NavigateToWeatherDetails with that location |
| ManageLocations.ForwardedActionsDistinct | app/src/main/java/com/kazimi/syarahweather/ui/screens/managelocations/ManageLocationsViewModel.kt:77-78 | two forwarding intents send the same action exactly when they are equal or both open the same location |
| ManageLocations.ManageLocationsViewModel.constructor | app/src/main/java/com/kazimi/syarahweather/ui/screens/managelocations/ManageLocationsViewModel.kt:321-340 | the default state and an empty slot |
| ManageLocations.ManageLocationsViewModel.Collect | app/src/main/java/com/kazimi/syarahweather/ui/screens/managelocations/ManageLocationsViewModel.kt:288-316 | collecting a stream leaves the fold of the step over it |
| ManageLocations.ManageLocationsViewModel.CheckPermissionState | app/src/main/java/com/kazimi/syarahweather/ui/screens/managelocations/ManageLocationsViewModel.kt:95-109 | only the permission state changes, by the check step |
| ManageLocations.ManageLocationsViewModel.LocationPermissionGranted | app/src/main/java/com/kazimi/syarahweather/ui/screens/managelocations/ManageLocationsViewModel.kt:111-119 | only the permission state changes, by the granted step |
| ManageLocations.ManageLocationsViewModel.LocationPermissionDenied | app/src/main/java/com/kazimi/syarahweather/ui/screens/managelocations/ManageLocationsViewModel.kt:123-134 | only the permission state changes, by the denied step |
| ManageLocations.ManageLocationsViewModel.LoadSavedLocations | app/src/main/java/com/kazimi/syarahweather/ui/screens/managelocations/ManageLocationsViewModel.kt:245-270 | the state is the fold over `toResult` of the flow, which is its closed form, with the flag kept in agreement |
| ManageLocations.ManageLocationsViewModel.RemoveLocation | app/src/main/java/com/kazimi/syarahweather/ui/screens/managelocations/ManageLocationsViewModel.kt:272-279 | if any removal result is a Success, the list is reloaded and "Location removed" is in the slot; otherwise state and slot are unchanged |
| ManageLocations.ManageLocationsViewModel.RemoveFromStore | app/src/main/java/com/kazimi/syarahweather/ui/screens/managelocations/ManageLocationsViewModel.kt:272-279 | against the store: a successful edit shows the list without that id, a failed one the old list; the message is shown either way |
| ManageLocations.ManageLocationsViewModel.LoadWeatherForCurrentLocation | app/src/main/java/com/kazimi/syarahweather/ui/screens/managelocations/ManageLocationsViewModel.kt:287-317 | the state is the weather fold over the use case's stream for those coordinates |
| ManageLocations.ManageLocationsViewModel.Forward | app/src/main/java/com/kazimi/syarahweather/ui/screens/managelocations/ManageLocationsViewModel.kt:62-78 | the intent's action is in the slot |
| PlacesSearch.ResetSearch | app/src/main/java/com/kazimi/syarahweather/ui/screens/placesearch/PlacesSearchViewModel.kt:70-76 | no results, not searching, no error; the add-location fields are untouched |
| PlacesSearch.SearchedQueries | app/src/main/java/com/kazimi/syarahweather/ui/screens/placesearch/PlacesSearchViewModel.kt:61 | the queries that reach the search are exactly the non-blank ones, in order, repeats included: a subsequence without blanks whose length is the input's minus its blank count |
| PlacesSearch.SubsequenceOfTail | app/src/main/java/com/kazimi/syarahweather/ui/screens/placesearch/PlacesSearchViewModel.kt:61 | filtering the tail of a stream gives a subsequence of the whole |
| PlacesSearch.SearchStep | app/src/main/java/com/kazimi/syarahweather/ui/screens/placesearch/PlacesSearchViewModel.kt:80-106 | searching exactly on Loading; a Success shows its results; an Error empties them, shows the message and sends ShowError with it; nothing else is sent |
| PlacesSearch.SearchFoldSpec | app/src/main/java/com/kazimi/syarahweather/ui/screens/placesearch/PlacesSearchViewModel.kt:79-107 | a search sends exactly as many actions as it has Errors, each a ShowError carrying the message of one of them; a search without Errors sends nothing; the add-location fields are untouched |
| PlacesSearch.LastSearchResultShown | app/src/main/java/com/kazimi/syarahweather/ui/screens/placesearch/PlacesSearchViewModel.kt:89-103 | after a stream ending in a result, that result decides what is shown, and searching is over |
| PlacesSearch.SavedListStep | app/src/main/java/com/kazimi/syarahweather/ui/screens/placesearch/PlacesSearchViewModel.kt:166-171 | the list is shown and flagged iff size >= 5; adding is over; the search fields are untouched |
| PlacesSearch.SavedListAsWrittenIsEmpty | app/src/main/java/com/kazimi/syarahweather/ui/screens/placesearch/PlacesSearchViewModel.kt:163-164 | as written, the list read is always empty |
| PlacesSearch.AsWrittenMissesFullList | app/src/main/java/com/kazimi/syarahweather/ui/screens/placesearch/PlacesSearchViewModel.kt:163-168 | as written, a store holding five locations shows no list and no "maximum reached" flag |
| PlacesSearch.FirstNonLoading | app/src/main/java/com/kazimi/syarahweather/ui/screens/placesearch/PlacesSearchViewModel.kt:163 | null exactly when every element is Loading; otherwise the first element that is not |
| PlacesSearch.SavedListCorrectedReadsFirstValue | app/src/main/java/com/kazimi/syarahweather/ui/screens/placesearch/PlacesSearchViewModel.kt:163-164 | the corrected load reads the first list the store emits, and the empty list when there is none |
| PlacesSearch.CorrectedReportsFullList | app/src/main/java/com/kazimi/syarahweather/ui/screens/placesearch/PlacesSearchViewModel.kt:163-171 | with the correction, the store's list is shown and flagged iff size >= 5 |
| PlacesSearch.StartAdding | app/src/main/java/com/kazimi/syarahweather/ui/screens/placesearch/PlacesSearchViewModel.kt:111-114 | adding, with the place's id recorded |
| PlacesSearch.StopAdding | app/src/main/java/com/kazimi/syarahweather/ui/screens/placesearch/PlacesSearchViewModel.kt:144-147 | adding over, with no id recorded |
| PlacesSearch.AddStep | app/src/main/java/com/kazimi/syarahweather/ui/screens/placesearch/PlacesSearchViewModel.kt:118-150 | Loading keeps adding; Success(true) reloads the list and sends the success message then NavigateBack; Success(false) and Error end adding and send one error; the adding flag and id always agree |
| PlacesSearch.AddLocationOutcome | app/src/main/java/com/kazimi/syarahweather/ui/screens/placesearch/PlacesSearchViewModel.kt:109-159 | against the save use case: adding always ends; NavigateBack is sent exactly when the read worked, both checks passed and the write succeeded; a rejection sends its message alone |
| PlacesSearch.PlacesSearchViewModel.constructor | app/src/main/java/com/kazimi/syarahweather/ui/screens/placesearch/PlacesSearchViewModel.kt:192-201 | the default state, an empty query and an empty slot |
| PlacesSearch.PlacesSearchViewModel.SendAll | app/src/main/java/com/kazimi/syarahweather/ui/screens/placesearch/PlacesSearchViewModel.kt:131-133 | after a series of sends, the slot holds the last action sent, or is unchanged when none was |
| PlacesSearch.PlacesSearchViewModel.HandleSearchPlaces | app/src/main/java/com/kazimi/syarahweather/ui/screens/placesearch/PlacesSearchViewModel.kt:67-77 | the query is stored; a blank one resets the search, and a non-blank one leaves the state as it is |
| PlacesSearch.PlacesSearchViewModel.HandleClearSearch | app/src/main/java/com/kazimi/syarahweather/ui/screens/placesearch/PlacesSearchViewModel.kt:181-188 | the query becomes "" and the same reset as for a blank query is applied |
| PlacesSearch.PlacesSearchViewModel.PerformSearch | app/src/main/java/com/kazimi/syarahweather/ui/screens/placesearch/PlacesSearchViewModel.kt:79-107 | the state and the actions sent are the search fold's; the slot holds the last action sent |
| PlacesSearch.PlacesSearchViewModel.LoadSavedLocations | app/src/main/java/com/kazimi/syarahweather/ui/screens/placesearch/PlacesSearchViewModel.kt:161-171 | the corrected saved list is shown and flagged, and adding is over |
| PlacesSearch.PlacesSearchViewModel.HandleAddLocation | app/src/main/java/com/kazimi/syarahweather/ui/screens/placesearch/PlacesSearchViewModel.kt:109-159 | the state and the actions sent are those of the add-location flow, including the catch branch; the slot holds the last action sent |
| Mapper.FirstDescription | app/src/main/java/com/kazimi/syarahweather/data/Mapper.kt:25 | the first weather entry's description, or "" when there is none |
| Mapper.FirstIcon | app/src/main/java/com/kazimi/syarahweather/data/Mapper.kt:26 | the first weather entry's icon, or "" when there is none |
| Mapper.Millis | app/src/main/java/com/kazimi/syarahweather/data/Mapper.kt:33 | in range, `dt * 1000` is exact and dividing it back by 1000 gives dt |
| Mapper.ResponseLocation | app/src/main/java/com/kazimi/syarahweather/data/Mapper.kt:14-22 | id = the decimal id, which parses back to the number; name, coordinates and country copied; no state; not current |
| Mapper.DistinctIdsGiveDistinctLocationIds | app/src/main/java/com/kazimi/syarahweather/data/Mapper.kt:15 | responses about different city ids give locations with different ids |
| Mapper.CurrentResponseToWeatherData | app/src/main/java/com/kazimi/syarahweather/data/Mapper.kt:12-37 | the response's location; readings copied field by field; uvIndex 0; lastUpdated = dt × 1000; no forecast |
| Mapper.ItemToCurrentWeather | app/src/main/java/com/kazimi/syarahweather/data/Mapper.kt:68-81 | the item's readings copied; uvIndex 0; lastUpdated = dt × 1000 |
| Mapper.ItemToWeatherForecast | app/src/main/java/com/kazimi/syarahweather/data/Mapper.kt:84-94 | date = dtTxt, maxTemp = tempMax, minTemp = tempMin, and the description, icon, humidity and wind copied |
| Mapper.ForecastResponseToWeatherData | app/src/main/java/com/kazimi/syarahweather/data/Mapper.kt:40-65 | the city's location; the first item's current weather, or all zeros and "" when the list is empty; one forecast sample per item, in order |
| Mapper.ForecastKeepsDayKeys | app/src/main/java/com/kazimi/syarahweather/data/Mapper.kt:63 | each forecast sample has the day key of its item's timestamp |
| Mapper.ToCoordinates | app/src/main/java/com/kazimi/syarahweather/data/Mapper.kt:97-99 | the pair (latitude, longitude) |
| Mapper.ConflictsByIdOrCoordinates | app/src/main/java/com/kazimi/syarahweather/domain/usecase/managelocation/SaveNewLocationUseCase.kt:35-38 | the save's duplicate test holds exactly when the ids are equal or the `toCoordinates` pairs are equal |
| Mapper.SameCoordinatesRejected | app/src/main/java/com/kazimi/syarahweather/domain/usecase/managelocation/SaveNewLocationUseCase.kt:35-43 | a location at the coordinate pair of a saved one is rejected whatever its id: Loading, then the rejection, and no write |
| Mapper.NewIdAndCoordinatesAccepted | app/src/main/java/com/kazimi/syarahweather/domain/usecase/managelocation/SaveNewLocationUseCase.kt:25-47 | below the cap, a location whose id and coordinate pair are both new is written, and the write's own result is passed on |

## Left out

- Concurrency and timing are not modelled. That covers `viewModelScope.launch` interleavings, `transformLatest` cancellation, the race between two concurrent saves (check, then write), the 300 ms `debounce` and `distinctUntilChanged`. Each handler is a sequential fold. The one interleaving that is modelled is the two loads of `refreshWeatherData`.
- A store write, a reload or a `sendAction` that a handler launches as a separate coroutine happens in the model at the point where it is launched. The loads launched by a view model's `init` are the exception: they are left to the caller, as listed below for each constructor.
- `loadCurrentLocation`, the location branch of `useCurrentDeviceLocation`, `loadInitialData`, `useCurrentLocation`, `handleLocationResult` and `refreshCurrentLocation` are not modelled. They only orchestrate platform location calls and launches. The no-location branch is modelled, by `HandleNoLocation`.
- `WeatherDetails.WeatherDetailsViewModel.currentLocation` is set only by the constructor. Its updates at `WeatherDetailsViewModel.kt:172` and `:220` belong to the location loads, which are not modelled.
- The catch branch of `PlacesSearchViewModel.loadSavedLocations` (lines 172-178) is not modelled. `toResult` already turns a failing store flow into an `Error`, so the catch cannot be reached.
- The Compose UI, navigation, the network stack (Retrofit, Gson, `ApiResponse`), the Places SDK, the platform location services and dependency injection are not modelled. Response records are the Dafny datatypes of `Mapper`.
- `LocationJsonConverter` and DataStore are reduced to their contract: a missing, blank or malformed key reads as the empty list or no location (`LocationJsonConverter.kt:19-25`, `:34-39`). Encoding is assumed lossless.
- Floating point is not modelled: `Double` is an exact real, so rounding and NaN are out of scope.
- `System.currentTimeMillis()` is the parameter `now`. The repositories and use cases behind the view models are parameters, whether stream values or functions of the coordinates. The device permission check is the parameter `info`.
- `MAX_SAVED_LOCATIONS` is defined in `LocationConstants`, which is not part of this model. The constant 5 is taken from the "/5" counters of the screens.
- `ManageLocations.RequestCountNeverDecreases`: the property is stated only while the counter stays at or below `Int.MAX_VALUE`. Past that point it wraps, and `DenialAtIntMaxWraps` shows it decreasing.
- `WeatherDetails.ShownForecastIsWindowed`: stated over any result stream with the guarantees `GetFiveDayForecast` ensures when its upstream ends normally, not over `GetFiveDayForecast` applied directly.
- `ManageLocations.ManageLocationsViewModel.RemoveFromStore`: the reload reads a single snapshot of the store, taken after the removal.
- `PlacesSearch.PlacesSearchViewModel.LoadSavedLocations`: the class applies the correction of the finding below and reads the first result that is not `Loading` (`SavedListCorrected`). As written, line 163 always leaves the list empty and the flag false; that behaviour is stated by `SavedListAsWrittenIsEmpty` and `AsWrittenMissesFullList`, not by the class.
- `PlacesSearch.PlacesSearchViewModel.HandleAddLocation`: the reload after `Success(true)` uses the same corrected read, so the model shows the store's list where the code as written shows an empty list with the flag false.
- `WeatherDetails.WeatherDetailsViewModel.constructor`: the `refreshWeatherData()` that `init` launches at line 66 is not run by the constructor; it is left to the caller, as `RefreshWeatherData`.
- `PlacesSearch.PlacesSearchViewModel.constructor`: the `loadSavedLocations()` that `init` launches at line 44 is not run by the constructor; it is left to the caller, as `LoadSavedLocations`. The search debounce set up at line 45 is concurrency, left out above.

## Findings

| source | as written | input that shows it | evidently intended | confidence | as-written member | corrected member |
|---|---|---|---|---|---|---|
| app/src/main/java/com/kazimi/syarahweather/ui/screens/placesearch/PlacesSearchViewModel.kt:163-164 | `getSavedLocationsUseCase().first()` takes the first element of a `toResult` stream. That element is always `Loading`, so `getOrNull()` is null, the list is empty and `isMaxLocationsReached` is false. | a store holding five saved locations | read the first result that is not Loading, so the stored list is shown and the cap is reported | not executed | PlacesSearch.AsWrittenMissesFullList | PlacesSearch.CorrectedReportsFullList |
