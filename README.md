# cxxutilities core, modelled in Dafny

This project models the four pieces of sequential logic in `CxxUtilities.hpp`
of cxxutilities and proves what they promise.

- **Ordinal dispatcher** (`constexpr_apply`, `detail::apply_helper`), module `Dispatch`.
  The fold over the ordinals `0 .. Max-1` is a loop with the source's `hasValue` flag and `result` slot.
  The caller's operation is a function from ordinal to result.
  Its invocations are returned as a log of the ordinals it was called with.
  The three result shapes are modelled: `bool` for a void operation, `optional<V>` for a `V`-returning one, and the un-nested `optional<V>` for an operation that already returns an optional (`OptionalUnpacker`).
- **Release helpers** (`Releaser`, `ScopedReleaser`, `callAtEndOfScope`), module `Release`.
  `Releaser` is a function giving the calls made to the wrapped deallocation function.
  `ScopedReleaser` is a class with the stored handle, a `released` flag and a shared, append-only release log.
  A `Scope` class holds the guards of one block scope that are kept in named locals; they are released last-constructed first when the scope exits.
  A guard returned by `callAtEndOfScope` and not kept is a temporary, and it releases its handle at the end of that statement.
- **Integer range helpers** (`Range`, `operator|=`, both `clamp` overloads, variadic `min`/`max`, `range`), module `Ranges`.
  `Range` is a class because `|=` updates its bounds in place.
- **Memoised singleton** (`getOrCreate`), module `Singleton`.
  `Cache` is the pure state: one slot per key (the factory type plus the argument types), instances as ids with a strong-handle count, and the number of factory calls.
  `Get` and `Drop` are the specification functions of one call and of one handle's destruction.
  The class `Registry` performs `getOrCreate` step by step as the source does: static initialiser, `lock()`, then rebuild.
  Its methods are proved equal to the specification functions.

Everything is single-threaded. The release actions, the dispatcher's operation and the factory are modelled by what they are called with.

## Model

| member | source | states |
|---|---|---|
| `Dispatch.Ordinals` | CxxUtilities.hpp:58 | `make_index_sequence<Max>` is the ordinals 0 to Max-1, in order |
| `Dispatch.OrdinalsMembership` | CxxUtilities.hpp:58 | a value is among the generated ordinals if and only if it lies in `[0, Max)` |
| `Dispatch.ApplyHelper` | CxxUtilities.hpp:27-53 | for any ordinal sequence, the operation is invoked once, with `value`, when `value` occurs in it, and never otherwise; the result is what the matching arm stores, or the initial `result` |
| `Dispatch.ApplyVoid` | CxxUtilities.hpp:30-43 | void operation: in range, invoked exactly once with `value` and the result is `true`; out of range, never invoked and the result is the uninitialised bool's content |
| `Dispatch.UninitialisedResultMisreports` | CxxUtilities.hpp:34 | an out-of-range value can come back as `true` although nothing ran |
| `Dispatch.ApplyVoidInitialised` | CxxUtilities.hpp:34-43 | with `result` initialised to `false`, the result is true if and only if the value is in range, and the operation ran exactly then |
| `Dispatch.ApplyValue` | CxxUtilities.hpp:32-46 | value operation: in range, invoked once with `value` and the result holds its value; out of range, never invoked and the result is empty |
| `Dispatch.ApplyOptional` | CxxUtilities.hpp:23-46 | optional-returning operation: the result is the operation's own optional (not nested), so a matching arm yielding empty gives empty; a non-empty result implies a match |
| `Release.Releaser` | CxxUtilities.hpp:68-70 | a null handle makes no call; any other handle makes exactly one call, with that handle |
| `Release.DeallocationsAreNonNull` | CxxUtilities.hpp:70 | running `Releaser` over many handles never deallocates null and deallocates each non-null handle as often as it occurs |
| `Release.UnwoundPrepend` | CxxUtilities.hpp:73-85 | a guard constructed before the others is released after all of them |
| `Release.UnwoundReverses` | CxxUtilities.hpp:73-85 | unwinding a scope releases its handles in reverse construction order, each exactly once |
| `Release.ScopedReleaser.constructor` | CxxUtilities.hpp:75 | construction stores the handle unchanged and releases nothing |
| `Release.ScopedReleaser.Get` | CxxUtilities.hpp:77-78 | `get()` and the conversion to `T` return the handle given at construction |
| `Release.ScopedReleaser.Exit` | CxxUtilities.hpp:76 | the destructor calls the release action exactly once, on the stored handle |
| `Release.Scope.Pending` | CxxUtilities.hpp:84-85 | the handles still to be released are those of the scope's guards, in construction order |
| `Release.Scope.constructor` | CxxUtilities.hpp:84-85 | a scope starts with no guard |
| `Release.Scope.CallAtEndOfScope` | CxxUtilities.hpp:84-85 | `callAtEndOfScope` whose result is kept in a named local adds one new guard for the handle, last in construction order |
| `Release.Scope.CallAndDiscard` | CxxUtilities.hpp:76-85 | `callAtEndOfScope` used as a bare statement releases the handle at once, exactly once, and adds no guard to the scope |
| `Release.Scope.ExitLast` | CxxUtilities.hpp:76 | one unwinding step: the last-constructed guard releases its handle once and leaves the scope; the others are untouched |
| `Release.Scope.Exit` | CxxUtilities.hpp:73-85 | leaving a scope releases every guard once, the last-constructed first, and nothing else |
| `Ranges.Min2` | CxxUtilities.hpp:97 | `std::min` is one of its arguments and no larger than either |
| `Ranges.Max2` | CxxUtilities.hpp:97 | `std::max` is one of its arguments and no smaller than either |
| `Ranges.Min` | CxxUtilities.hpp:100-101 | variadic `min` is one of the arguments and no larger than any of them |
| `Ranges.Max` | CxxUtilities.hpp:102-103 | variadic `max` is one of the arguments and no smaller than any of them |
| `Ranges.Range.constructor` | CxxUtilities.hpp:97 | a range holds the bounds it is initialised with |
| `Ranges.Range.Include` | CxxUtilities.hpp:97 | after `|= v` the range contains `v`; `min` never increases and `max` never decreases; each bound is its old value or `v`; a range already containing `v` is unchanged |
| `Ranges.Clamp` | CxxUtilities.hpp:98 | for an ordered range the result lies in it, equals `value` when `value` is inside and the nearer bound otherwise; for `min > max` the result is `max` |
| `Ranges.ClampAbs` | CxxUtilities.hpp:99 | clamps to `[-absMax, absMax]`; a negative `absMax` always gives `absMax` |
| `Ranges.RangeOf` | CxxUtilities.hpp:104 | `range(args...)` has bounds that are arguments and contains every argument |
| `Ranges.IncludeExtendsArguments` | CxxUtilities.hpp:97-104 | `range(args...) |= v` has the bounds of `range(args..., v)` |
| `Ranges.MinMaxOrderFree` | CxxUtilities.hpp:100-103 | variadic `min` and `max` do not depend on the order of the arguments |
| `Singleton.Empty` | CxxUtilities.hpp:119 | before any call no slot is initialised and no factory has run |
| `Singleton.Get` | CxxUtilities.hpp:114-130 | afterwards the slot is live and points at the returned instance; a live slot's instance is returned with no factory call; otherwise the factory runs once and the new instance has one handle; other slots and instances are untouched |
| `Singleton.Drop` | CxxUtilities.hpp:124 | models the `shared_ptr` destructor, which the source does not contain but on which the `lock()` at line 124 depends: destroying a handle lowers that instance's count by one and changes no slot |
| `Singleton.GetKeepsValid` | CxxUtilities.hpp:119-129 | `getOrCreate` keeps every slot pointing at its own factory's instance and every live instance in its slot |
| `Singleton.DropKeepsValid` | CxxUtilities.hpp:124-128 | destroying a handle keeps that invariant |
| `Singleton.SlotsDistinct` | CxxUtilities.hpp:114-119 | two distinct keys never point at the same instance |
| `Singleton.AtMostOneLive` | CxxUtilities.hpp:124-128 | at most one live instance per key |
| `Singleton.RetainedHandleIsShared` | CxxUtilities.hpp:119-125 | a second call while the first handle is held returns the identical instance, and the factory runs at most once across both calls |
| `Singleton.ReleasedSlotIsRebuilt` | CxxUtilities.hpp:124-129 | after the last handle is released, the next call runs the factory again and returns a new instance that no slot pointed at |
| `Singleton.OtherSlotsIndependent` | CxxUtilities.hpp:114-119 | a call for one key leaves every other key's slot and liveness unchanged |
| `Singleton.RunKeepsValid` | CxxUtilities.hpp:114-130 | any sequence of `getOrCreate` calls and handle destructions keeps the cache invariant |
| `Singleton.ReachableAtMostOneLive` | CxxUtilities.hpp:114-130 | in every state reachable from program start, no key has two live instances |
| `Singleton.Registry.constructor` | CxxUtilities.hpp:119 | the registry starts as the empty cache |
| `Singleton.Registry.GetOrCreate` | CxxUtilities.hpp:114-130 | the source's steps (static initialiser with `_shared`, `lock()`, rebuild) have exactly the effect and result of `Get` |
| `Singleton.Registry.Release` | CxxUtilities.hpp:124 | models the `shared_ptr` destructor, on which the `lock()` at line 124 depends: destroying a handle has exactly the effect of `Drop` |

## Findings

| source | as written | input that shows it | evidently intended | confidence | as-written member | corrected member |
|---|---|---|---|---|---|---|
| CxxUtilities.hpp:34 | for a void operation, `bool result;` is never initialised and is returned as-is when no arm matches | `value` = 3, `Max` = 3, void operation, with the uninitialised storage holding `true` | `false` for no match, so that the result says whether the operation ran | high; not executed | `Dispatch.UninitialisedResultMisreports` | `Dispatch.ApplyVoidInitialised` |

The as-written member `Dispatch.ApplyVoid` keeps the source's behaviour.
Its no-match result is a parameter (`indeterminate`) standing for the uninitialised storage.
In C++ reading that storage is undefined behaviour; the model only states that the result is not determined by the dispatcher.

## Left out

- `fltIsEqual` (line 93) and `dround` (line 110): floating point (`fabs`, `epsilon`, `ceil`, `floor`) is not modelled.
- `invoke_with_sequence` (lines 62-65): a single pack expansion into one call, with no logic of its own.
- The type-level selection of the dispatcher's result type (`invoke_result_t`, `conditional_t`, `OptionalUnpacker`) is modelled as three separate entry points, one per result shape.
- The move of the operation into each arm's closure (line 36): the operation is a pure function here, so later arms never see a moved-from functor.
- Copying or moving a `ScopedReleaser`: the source declares neither. A guard is constructed once and exits once, and `Exit` requires it not to have released yet (C++ runs a destructor once).
- Exceptions: leaving a scope is one event whatever caused it, and a factory or release action that throws is not modelled.
- Release actions other than logging: the log records each handle a release action was called with; what the action does is outside the model. `Deallocations` lists the calls `Releaser` makes over a sequence of handles; no member ties `Releaser` to a guard's log.
- `Ranges`: the element type is an unbounded integer. Fixed-width wrap-around is not modelled. This includes `static_cast<T>(-1) * absMax` for unsigned `T` and the negation of the most negative value.
- `getOrCreate`: `shared_ptr`/`weak_ptr` are abstract ids with a strong count, and destruction of an instance is its count reaching zero. A factory that returns a null pointer is not modelled. The factory always yields a new instance.
- Copying a returned `shared_ptr` is not a step of `Run`. Such a copy raises the count of a live instance, which the invariant makes the instance its slot points at. It therefore reaches the same states as a `getOrCreate` call for that live key.
- `getOrCreate` concurrency: the static initialiser is thread-safe but the check at line 124 and the rebuild at lines 127-128 are not; the model is single-threaded.
- The slot key is abstract. Which C++ calls share an instantiation (the same factory type and argument types, including whether the factory is passed as an lvalue or an rvalue) is decided by the compiler, and the model takes the key as given.
