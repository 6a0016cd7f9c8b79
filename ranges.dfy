/**
 * The integer range helpers: `Range` and its `operator|=`, the two `clamp`
 * overloads, the variadic `min` and `max`, and `range`. The element type is
 * taken to be a mathematical integer.
 */
module Ranges {

  /** `std::min` on two values. */
  function Min2(a: int, b: int): (m: int)
    ensures m <= a && m <= b && (m == a || m == b)
  {
    if b < a then b else a
  }

  /** `std::max` on two values. */
  function Max2(a: int, b: int): (m: int)
    ensures a <= m && b <= m && (m == a || m == b)
  {
    if a < b then b else a
  }

  /** The variadic `min(args...)`: one of the arguments, no larger than any of them. */
  function Min(args: seq<int>): (m: int)
    requires |args| >= 1
    ensures m in args
    ensures forall a :: a in args ==> m <= a
  {
    if |args| == 1 then args[0]
    else
      assert args == [args[0]] + args[1..];
      Min2(args[0], Min(args[1..]))
  }

  /** The variadic `max(args...)`: one of the arguments, no smaller than any of them. */
  function Max(args: seq<int>): (m: int)
    requires |args| >= 1
    ensures m in args
    ensures forall a :: a in args ==> a <= m
  {
    if |args| == 1 then args[0]
    else
      assert args == [args[0]] + args[1..];
      Max2(args[0], Max(args[1..]))
  }

  /** `Range<T>`: a pair of bounds, with nothing requiring `min <= max`. */
  class Range {
    var min: int
    var max: int

    /** The aggregate initialisation `Range { .min = min, .max = max }`. */
    constructor (min: int, max: int)
      ensures this.min == min && this.max == max
    {
      this.min := min;
      this.max := max;
    }

    /** `v` lies between the bounds. */
    predicate Contains(v: int)
      reads this
    {
      min <= v <= max
    }

    /**
     * `operator|=(value)`: widens the range just enough to contain `value`.
     * Afterwards the range contains `value`, `min` has not increased, `max`
     * has not decreased, and each bound is either its old value or `value`.
     */
    method Include(value: int)
      modifies this
      ensures Contains(value)
      ensures min <= old(min) && old(max) <= max
      ensures (min == old(min) || min == value) && (max == old(max) || max == value)
      ensures old(Contains(value)) ==> min == old(min) && max == old(max)
    {
      min := Min2(min, value);
      max := Max2(max, value);
    }
  }

  /**
   * `clamp(value, range)`, computed as `min(max(value, range.min), range.max)`.
   * For an ordered range the result lies in it and is `value` when `value`
   * already does; for a range with `min > max` the outer `min` wins and the
   * result is `range.max`.
   */
  function Clamp(value: int, range: Range): (c: int)
    reads range
    ensures c <= range.max
    ensures range.min <= range.max ==> range.min <= c
    ensures range.Contains(value) ==> c == value
    ensures value < range.min <= range.max ==> c == range.min
    ensures range.max < value ==> c == range.max
    ensures range.max < range.min ==> c == range.max
  {
    Min2(Max2(value, range.min), range.max)
  }

  /**
   * `clamp(value, absMax)`: clamps to the range `[-absMax, absMax]`. For a
   * negative `absMax` that range is empty and the result is `absMax`.
   */
  method ClampAbs(value: int, absMax: int) returns (c: int)
    ensures absMax >= 0 ==> -absMax <= c <= absMax
    ensures -absMax <= value <= absMax ==> c == value
    ensures absMax < 0 ==> c == absMax
    ensures 0 <= absMax < value ==> c == absMax
    ensures value < -absMax <= absMax ==> c == -absMax
  {
    var r := new Range(-1 * absMax, absMax);
    c := Clamp(value, r);
  }

  /**
   * `range(args...)`: the smallest range holding every argument; each bound
   * is one of the arguments.
   */
  method RangeOf(args: seq<int>) returns (r: Range)
    requires |args| >= 1
    ensures fresh(r)
    ensures r.min in args && r.max in args
    ensures forall a :: a in args ==> r.Contains(a)
  {
    r := new Range(Min(args), Max(args));
  }

  /**
   * `range(args...) |= v` is `range(args..., v)`: widening by one value is
   * the same as having passed it as one more argument.
   */
  lemma {:induction false} IncludeExtendsArguments(args: seq<int>, v: int)
    requires |args| >= 1
    ensures Min(args + [v]) == Min2(Min(args), v)
    ensures Max(args + [v]) == Max2(Max(args), v)
  {
    if |args| > 1 {
      assert (args + [v])[1..] == args[1..] + [v];
      IncludeExtendsArguments(args[1..], v);
    }
  }

  /** The variadic `min` and `max` do not depend on the order of the arguments. */
  lemma {:induction false} MinMaxOrderFree(args: seq<int>, perm: seq<int>)
    requires |args| >= 1 && multiset(args) == multiset(perm)
    ensures Min(args) == Min(perm) && Max(args) == Max(perm)
  {
    assert |perm| >= 1 by {
      assert |multiset(perm)| == |multiset(args)|;
    }
    forall a | a in args ensures a in perm {
      assert a in multiset(args);
    }
    forall a | a in perm ensures a in args {
      assert a in multiset(perm);
    }
  }
}
