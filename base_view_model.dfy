/**
  `ComposeBaseViewModel`: the one-slot action mailbox shared by the screens. It is a
  `MutableSharedFlow(replay = 1, onBufferOverflow = DROP_OLDEST)`: emitting never
  suspends or fails, and the slot keeps only the newest action.
 */
module BaseViewModel {

  /** A one-shot action for the view, or the `EmptyAction` placeholder that overwrites it. */
  datatype ViewAction<+A> = EmptyAction | ScreenAction(action: A)

  /** The `replay` parameter of the shared flow. */
  const REPLAY: nat := 1

  /**
    The replay cache of a shared flow holding at most `capacity` values after
    `tryEmit(x)` with DROP_OLDEST: `x` is appended, and the oldest values are dropped
    to make room.
   */
  function DropOldestEmit<T>(cache: seq<T>, x: T, capacity: nat): (r: seq<T>)
    requires capacity >= 1
    ensures |r| == if |cache| + 1 <= capacity then |cache| + 1 else capacity
    ensures r[|r| - 1] == x
    ensures forall i :: 0 <= i < |r| - 1 ==> r[i] == cache[|cache| + 1 - |r| + i]
  {
    var all := cache + [x];
    if |all| <= capacity then all else all[|all| - capacity..]
  }

  /** With a replay of one, the cache after an emit is the emitted value alone, whatever it held. */
  lemma NewestOnly<T>(cache: seq<T>, x: T)
    ensures DropOldestEmit(cache, x, REPLAY) == [x]
  {
  }

  class ComposeBaseViewModel<A> {
    /** The replay cache of `viewAction`: what a new subscriber receives first. */
    var viewAction: seq<ViewAction<A>>

    ghost predicate Valid()
      reads this
    {
      |viewAction| <= REPLAY
    }

    constructor ()
      ensures viewAction == [] && Valid()
    {
      viewAction := [];
    }

    /** `sendAction(action)`: `tryEmit`, which always succeeds under DROP_OLDEST. */
    method SendAction(a: A) returns (emitted: bool)
      requires Valid()
      modifies this
      ensures Valid()
      ensures emitted
      ensures viewAction == DropOldestEmit(old(viewAction), ScreenAction(a), REPLAY)
      ensures viewAction == [ScreenAction(a)]
    {
      viewAction := DropOldestEmit(viewAction, ScreenAction(a), REPLAY);
      emitted := true;
    }

    /** `resetViewAction()`: overwrites the slot with the empty action. */
    method ResetViewAction() returns (emitted: bool)
      requires Valid()
      modifies this
      ensures Valid()
      ensures emitted
      ensures viewAction == [EmptyAction]
      ensures forall a :: ScreenAction(a) !in viewAction
    {
      viewAction := DropOldestEmit(viewAction, EmptyAction, REPLAY);
      emitted := true;
    }
  }

  /** Two sends with no reset in between: a later subscriber is replayed only the newer action. */
  method TwoSends<A>(vm: ComposeBaseViewModel<A>, first: A, second: A)
    requires vm.Valid()
    modifies vm
    ensures vm.viewAction == [ScreenAction(second)]
  {
    var ok1 := vm.SendAction(first);
    var ok2 := vm.SendAction(second);
  }
}
