/**
  The tri-state `Result` wrapper and its combinators. A Kotlin `Flow<T>` is modelled
  as the finite sequence of values it emits, followed by an optional terminal
  failure (the exception that ends it).
 */
module Results {
  import opened Wrappers
  import opened Domain

  datatype Result<+T> = Loading | Success(data: T) | Error(appError: AppError)

  /** A finite upstream flow: values in emission order, then possibly a failure. */
  datatype Flow<+T> = Flow(values: seq<T>, failure: Option<Throwable>)

  /** `flow.map(f)` for a function `f` that does not throw. */
  function MapFlow<T, U>(f: T -> U, flow: Flow<T>): (r: Flow<U>)
    ensures |r.values| == |flow.values| && r.failure == flow.failure
    ensures forall i :: 0 <= i < |flow.values| ==> r.values[i] == f(flow.values[i])
  {
    Flow(seq(|flow.values|, i requires 0 <= i < |flow.values| => f(flow.values[i])), flow.failure)
  }

  function Successes<T>(values: seq<T>): (r: seq<Result<T>>)
    ensures |r| == |values|
    ensures forall i :: 0 <= i < |values| ==> r[i] == Success(values[i])
  {
    seq(|values|, i requires 0 <= i < |values| => Success(values[i]))
  }

  /** What `.catch { emit(Result.Error(it.toAppError())) }` adds after the values. */
  function Terminal<T>(failure: Option<Throwable>): (r: seq<Result<T>>)
    ensures failure.None? ==> r == []
    ensures failure.Some? ==> r == [Error(ToAppError(failure.value))]
  {
    match failure
    case None => []
    case Some(e) => [Error(ToAppError(e))]
  }

  /** `Flow<T>.toResult()`: Loading first, then one Success per value, then an Error if the flow failed. */
  function ToResult<T>(flow: Flow<T>): (r: seq<Result<T>>)
    ensures |r| == 1 + |flow.values| + (if flow.failure.Some? then 1 else 0)
    ensures r[0] == Loading
    ensures forall i :: 0 <= i < |flow.values| ==> r[i + 1] == Success(flow.values[i])
    ensures flow.failure.Some? ==>
      r[|r| - 1] == Error(ToAppError(flow.failure.value))
      && r[|r| - 1].appError.errorType == UNKNOWN
      && r[|r| - 1].appError.message == flow.failure.value.message.GetOr("")
  {
    [Loading] + Successes(flow.values) + Terminal(flow.failure)
  }

  /** `Flow<T>.catchError()`: like `toResult`, without the leading Loading. */
  function CatchError<T>(flow: Flow<T>): (r: seq<Result<T>>)
    ensures |r| == |flow.values| + (if flow.failure.Some? then 1 else 0)
    ensures forall i :: 0 <= i < |flow.values| ==> r[i] == Success(flow.values[i])
    ensures flow.failure.Some? ==> r[|r| - 1] == Error(ToAppError(flow.failure.value))
    ensures Loading !in r
  {
    Successes(flow.values) + Terminal(flow.failure)
  }

  lemma ToResultIsLoadingThenCatchError<T>(flow: Flow<T>)
    ensures ToResult(flow) == [Loading] + CatchError(flow)
  {
  }

  /**
    The producer discipline of a `toResult` stream: Loading exactly once, at the start;
    an Error, if any, only as the last element.
   */
  predicate WellFormedStream<T>(r: seq<Result<T>>) {
    && |r| >= 1
    && r[0] == Loading
    && (forall i :: 1 <= i < |r| ==> !r[i].Loading?)
    && (forall i :: 0 <= i < |r| - 1 ==> !r[i].Error?)
  }

  lemma ToResultWellFormed<T>(flow: Flow<T>)
    ensures WellFormedStream(ToResult(flow))
  {
    var r := ToResult(flow);
    forall i | 1 <= i < |r| ensures !r[i].Loading? {
      if i <= |flow.values| {
        assert r[(i - 1) + 1] == Success(flow.values[i - 1]);
      }
    }
    forall i | 0 <= i < |r| - 1 ensures !r[i].Error? {
      if i >= 1 {
        assert r[(i - 1) + 1] == Success(flow.values[i - 1]);
      }
    }
  }

  /** `Result<T>.isSuccess()`: of the three kinds of result, the one that is neither Loading nor Error. */
  predicate IsSuccess<T>(r: Result<T>)
    ensures IsSuccess(r) <==> !r.Loading? && !r.Error?
  {
    r.Success?
  }

  /** `Result<T>.isError()`: never together with `isSuccess()`, and a Loading result is neither. */
  predicate IsError<T>(r: Result<T>)
    ensures IsError(r) ==> !IsSuccess(r)
    ensures r.Loading? <==> !IsError(r) && !IsSuccess(r)
  {
    r.Error?
  }

  /** `Result<T>.getResult()` */
  function GetResult<T>(r: Result<T>): (v: Option<T>)
    ensures v.Some? <==> r.Success?
    ensures r.Success? ==> v.value == r.data
  {
    if r.Success? then Some(r.data) else None
  }

  /** `Result<T>.getOrNull()`, written with `isSuccess()` as the source does. */
  function GetOrNull<T>(r: Result<T>): (v: Option<T>)
    ensures v.Some? <==> r.Success?
    ensures r.Success? ==> v.value == r.data
  {
    if IsSuccess(r) then Some(r.data) else None
  }

  lemma GetResultAgreesWithGetOrNull<T>(r: Result<T>)
    ensures GetResult(r) == GetOrNull(r)
  {
  }

  /** `Result<T>.exceptionOrNull()` */
  function ExceptionOrNull<T>(r: Result<T>): (e: Option<AppError>)
    ensures e.Some? <==> r.Error?
    ensures r.Error? ==> e.value == r.appError
  {
    if IsError(r) then Some(r.appError) else None
  }

  /**
    `Result<T>.isSuccessThen(then)`. The callback's side effect is modelled as a
    transition of the caller's state `s`: it runs, on the data, exactly for a Success.
   */
  function IsSuccessThen<T, S>(r: Result<T>, s: S, callback: (S, T) -> S): (s': S)
    ensures r.Success? ==> s' == callback(s, r.data)
    ensures !r.Success? ==> s' == s
  {
    if IsSuccess(r) then callback(s, r.data) else s
  }
}
