/**
 * The ordinal dispatcher (`constexpr_apply` and `detail::apply_helper`).
 *
 * An enumeration value is an `int` ordinal. The caller's operation is a
 * function from ordinal to what it produces; the compile-time constant that
 * the source passes as `std::integral_constant` is the ordinal argument.
 * The observable side effect of running the operation is recorded in an
 * invocation log: the ordinals the operation was called with, in order.
 */
module Dispatch {
  import opened Wrappers

  /** The ordinals `0, 1, ..., max - 1` (`std::make_index_sequence<max>`). */
  function Ordinals(max: nat): (s: seq<int>)
    ensures |s| == max
    ensures forall i :: 0 <= i < max ==> s[i] == i
  {
    seq(max, i => i)
  }

  /** An ordinal is one of `Ordinals(max)` exactly when it lies in `[0, max)`. */
  lemma OrdinalsMembership(value: int, max: nat)
    ensures value in Ordinals(max) <==> 0 <= value < max
  {
    if 0 <= value < max {
      assert Ordinals(max)[value] == value;
    }
  }

  /**
   * The fold of `apply_helper`: one arm per entry of `ordinals`, run in order.
   * An arm fires when no earlier arm has (`hasValue` is false) and its
   * ordinal equals `value`; firing invokes the operation and stores what the
   * arm produces, `arm(ordinal)`, in `result`. `init` is what `result`
   * holds before any arm fires (an empty optional, or an uninitialised bool).
   * Because of the `hasValue` flag the operation runs at most once even if an
   * ordinal were repeated.
   */
  method ApplyHelper<R>(value: int, ordinals: seq<int>, arm: int -> R, init: R)
    returns (result: R, invoked: seq<int>)
    ensures invoked == (if value in ordinals then [value] else [])
    ensures result == (if value in ordinals then arm(value) else init)
  {
    result := init;
    invoked := [];
    var hasValue := false;
    for k := 0 to |ordinals|
      invariant hasValue <==> value in ordinals[..k]
      invariant invoked == (if hasValue then [value] else [])
      invariant result == (if hasValue then arm(value) else init)
    {
      var option := ordinals[k];
      if !hasValue && option == value {
        invoked := invoked + [option];
        result := arm(option);
        hasValue := true;
      }
      assert ordinals[..k + 1] == ordinals[..k] + [option];
    }
    assert ordinals[..|ordinals|] == ordinals;
  }

  /**
   * `constexpr_apply` with an operation that returns nothing: the result is
   * `true` when an arm ran. When none ran, the source returns the bool it
   * never initialised; `indeterminate` stands for whatever that storage held.
   */
  method ApplyVoid(value: int, max: nat, indeterminate: bool)
    returns (result: bool, invoked: seq<int>)
    ensures 0 <= value < max ==> invoked == [value] && result
    ensures !(0 <= value < max) ==> invoked == [] && result == indeterminate
  {
    OrdinalsMembership(value, max);
    result, invoked := ApplyHelper(value, Ordinals(max), _ => true, indeterminate);
  }

  /**
   * With the uninitialised storage happening to hold `true`, an out-of-range
   * value is reported as matched although the operation never ran.
   */
  method UninitialisedResultMisreports() returns (result: bool, invoked: seq<int>)
    ensures result && invoked == []
  {
    result, invoked := ApplyVoid(3, 3, true);
  }

  /**
   * `constexpr_apply` for an operation that returns nothing, with the result
   * initialised to `false` as evidently intended: the result then says
   * exactly whether the operation ran.
   */
  method ApplyVoidInitialised(value: int, max: nat) returns (result: bool, invoked: seq<int>)
    ensures result <==> 0 <= value < max
    ensures invoked == (if result then [value] else [])
  {
    OrdinalsMembership(value, max);
    result, invoked := ApplyHelper(value, Ordinals(max), _ => true, false);
  }

  /**
   * `constexpr_apply` with an operation returning a plain value `V`: the
   * result is an optional holding the operation's value on a match and a
   * default-constructed (empty) optional otherwise.
   */
  method ApplyValue<V>(value: int, max: nat, op: int -> V)
    returns (result: Option<V>, invoked: seq<int>)
    ensures 0 <= value < max ==> invoked == [value] && result == Some(op(value))
    ensures !(0 <= value < max) ==> invoked == [] && result == None
  {
    OrdinalsMembership(value, max);
    result, invoked := ApplyHelper(value, Ordinals(max), i => Some(op(i)), None);
  }

  /**
   * `constexpr_apply` with an operation that already returns `optional<V>`:
   * `OptionalUnpacker` strips that optional from the result type, so the
   * result is not nested and a matching arm that yields an empty optional
   * makes the whole result empty.
   */
  method ApplyOptional<V>(value: int, max: nat, op: int -> Option<V>)
    returns (result: Option<V>, invoked: seq<int>)
    ensures 0 <= value < max ==> invoked == [value] && result == op(value)
    ensures !(0 <= value < max) ==> invoked == [] && result == None
    ensures result.Some? ==> 0 <= value < max && result == op(value)
  {
    OrdinalsMembership(value, max);
    result, invoked := ApplyHelper(value, Ordinals(max), op, None);
  }
}
