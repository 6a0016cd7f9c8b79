/**
 * The release helpers: `Releaser`, a null-checked deallocation call, and
 * `ScopedReleaser` / `callAtEndOfScope`, a guard that calls its release
 * action on the handle it holds when it goes out of scope.
 *
 * The release action's effect is modelled by a log of the handles it was
 * called with. Leaving a scope is one event, whatever caused it, and the
 * guards of one scope are unwound last-constructed first, as C++ destroys
 * automatic objects.
 */
module Release {

  /** A pointer handle: the null pointer or an address. */
  datatype Ptr = Null | At(address: nat)

  /**
   * `Releaser<FuncPtr>::operator()(p)`: the calls made to the wrapped
   * deallocation function, in order. A null handle makes no call; any other
   * handle makes exactly one, with that same handle.
   */
  function Releaser(p: Ptr): (calls: seq<Ptr>)
    ensures p == Null ==> calls == []
    ensures p != Null ==> |calls| == 1 && calls[0] == p
  {
    if p != Null then [p] else []
  }

  /** The deallocation calls made by running `Releaser` on each handle of `handles` in turn. */
  function Deallocations(handles: seq<Ptr>): seq<Ptr>
  {
    if handles == [] then [] else Releaser(handles[0]) + Deallocations(handles[1..])
  }

  /**
   * Running `Releaser` over a sequence of handles deallocates every non-null
   * handle exactly as often as it occurs, never the null handle, and keeps
   * the order.
   */
  lemma {:induction false} DeallocationsAreNonNull(handles: seq<Ptr>)
    ensures Null !in Deallocations(handles)
    ensures forall p :: p != Null ==> multiset(Deallocations(handles))[p] == multiset(handles)[p]
  {
    if handles != [] {
      DeallocationsAreNonNull(handles[1..]);
      assert handles == [handles[0]] + handles[1..];
    }
  }

  /** The order in which a stack of handles is released: the last one first. */
  function Unwound<T>(pending: seq<T>): seq<T>
  {
    if pending == [] then [] else [pending[|pending| - 1]] + Unwound(pending[..|pending| - 1])
  }

  /** Pushing a guard under the others means it is released after them. */
  lemma {:induction false} UnwoundPrepend<T>(x: T, pending: seq<T>)
    ensures Unwound([x] + pending) == Unwound(pending) + [x]
  {
    if pending != [] {
      var s := [x] + pending;
      assert s[..|s| - 1] == [x] + pending[..|pending| - 1];
      UnwoundPrepend(x, pending[..|pending| - 1]);
    }
  }

  /**
   * Unwinding releases every guarded handle exactly once: the unwound
   * sequence is the pending one reversed, so it is a permutation of it and a
   * guard constructed later is released earlier.
   */
  lemma {:induction false} UnwoundReverses<T>(pending: seq<T>)
    ensures |Unwound(pending)| == |pending|
    ensures forall i :: 0 <= i < |pending| ==> Unwound(pending)[i] == pending[|pending| - 1 - i]
    ensures multiset(Unwound(pending)) == multiset(pending)
  {
    if pending != [] {
      var n := |pending|;
      UnwoundReverses(pending[..n - 1]);
      assert pending == pending[..n - 1] + [pending[n - 1]];
    }
  }

  /** The effects of release actions: every handle a release action was called with, in call order. */
  class ReleaseLog<T> {
    var calls: seq<T>

    constructor ()
      ensures calls == []
    {
      calls := [];
    }
  }

  /** `ScopedReleaser<T, Lambda>`: holds a handle and releases it once, at scope exit. */
  class ScopedReleaser<T> {
    const what: T
    const log: ReleaseLog<T>
    var released: bool

    /** Construction stores the handle unchanged and releases nothing. */
    constructor (what: T, log: ReleaseLog<T>)
      ensures this.what == what && this.log == log && !released
    {
      this.what := what;
      this.log := log;
      released := false;
    }

    /** `get()` and `operator T()`: the handle given at construction. */
    function Get(): (h: T)
      ensures h == what
    {
      what
    }

    /** The destructor: the release action runs exactly once, on the stored handle. */
    method Exit()
      requires !released
      modifies this, log
      ensures released
      ensures log.calls == old(log.calls) + [what]
    {
      log.calls := log.calls + [what];
      released := true;
    }
  }

  /** A block scope holding the guards constructed in it, in construction order. */
  class Scope<T> {
    var guards: seq<ScopedReleaser<T>>
    const log: ReleaseLog<T>

    /** Every guard of the scope is distinct, reports to the scope's log and has not yet released. */
    ghost predicate Valid()
      reads this, guards
    {
      (forall i :: 0 <= i < |guards| ==> guards[i].log == log && !guards[i].released) &&
      (forall i, j :: 0 <= i < j < |guards| ==> guards[i] != guards[j])
    }

    /** The handles still to be released, in construction order. */
    function Pending(): (s: seq<T>)
      reads this
      ensures |s| == |guards|
      ensures forall i :: 0 <= i < |guards| ==> s[i] == guards[i].what
    {
      seq(|guards|, i requires 0 <= i < |guards| reads this => guards[i].what)
    }

    /** Entering a scope: no guard yet. */
    constructor (log: ReleaseLog<T>)
      ensures Valid() && this.log == log && guards == []
    {
      this.log := log;
      guards := [];
    }

    /**
     * `callAtEndOfScope(what, lambda)` whose result is kept in a named local:
     * a new guard for `what`, released when this scope exits.
     */
    method CallAtEndOfScope(what: T) returns (g: ScopedReleaser<T>)
      requires Valid()
      modifies this
      ensures Valid()
      ensures fresh(g) && g.what == what
      ensures guards == old(guards) + [g]
      ensures Pending() == old(Pending()) + [what]
    {
      g := new ScopedReleaser(what, log);
      guards := guards + [g];
    }

    /**
     * `callAtEndOfScope(what, lambda);` as a bare statement: the returned
     * temporary guard is destroyed at the end of that full-expression, so
     * `what` is released at once and the scope gains no guard.
     */
    method CallAndDiscard(what: T)
      requires Valid()
      modifies log
      ensures Valid()
      ensures guards == old(guards)
      ensures log.calls == old(log.calls) + [what]
    {
      var g := new ScopedReleaser(what, log);
      g.Exit();
    }

    /** Unwinding one step: the guard constructed last releases its handle and leaves the scope. */
    method ExitLast()
      requires Valid() && guards != []
      modifies this, log, guards[|guards| - 1]
      ensures Valid()
      ensures guards == old(guards[..|guards| - 1])
      ensures log.calls == old(log.calls) + [old(guards[|guards| - 1].what)]
      ensures old(guards[|guards| - 1]).released
    {
      var n := |guards|;
      var g := guards[n - 1];
      g.Exit();
      guards := guards[..n - 1];
    }

    /**
     * Leaving the scope: every guard runs its release action once, the guard
     * constructed last first, and nothing else is released.
     */
    method Exit()
      requires Valid()
      modifies this, log, set g | g in guards
      ensures guards == []
      ensures log.calls == old(log.calls) + Unwound(old(Pending()))
      ensures forall g :: g in old(guards) ==> g.released
      decreases |guards|
    {
      if guards != [] {
        ghost var pending := Pending();
        ExitLast();
        assert Pending() == pending[..|pending| - 1];
        Exit();
      }
    }
  }
}
