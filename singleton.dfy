/**
 * The memoised singleton `getOrCreate(factory, args...)`.
 *
 * Every instantiation of the function template has its own static
 * `weak_ptr` slot, so the slot is keyed by the factory's type together with
 * the argument types (`K` here), not by the type the factory produces. The
 * arguments' values (`A`) reach the factory only when it is called.
 *
 * Shared pointers are abstract: each instance the factory ever produced has
 * an id, its index in `instances`, and a count of the strong handles to it.
 * A weak reference can be locked exactly when that count is positive; an
 * instance whose count has dropped to zero has been destroyed.
 */
module Singleton {
  import opened Wrappers

  /** One factory product: the slot it was made for, the argument values it was made from, and its strong-handle count. */
  datatype Instance<K, A> = Instance(factory: K, args: A, strong: nat)

  /**
   * Every slot of the process. `slots` maps a key whose static slot has been
   * initialised to the instance its weak reference points at; the number of
   * factory calls so far is `|instances|`.
   */
  datatype Cache<K, A> = Cache(slots: map<K, nat>, instances: seq<Instance<K, A>>)
  {
    /**
     * A slot points at an instance made for that slot, and a live instance
     * is the one its slot points at: at most one live instance per key.
     */
    ghost predicate Valid()
    {
      (forall k :: k in slots ==> slots[k] < |instances| && instances[slots[k]].factory == k) &&
      (forall i :: 0 <= i < |instances| && instances[i].strong > 0 ==>
         instances[i].factory in slots && slots[instances[i].factory] == i)
    }

    /** The slot of `key` holds a weak reference that `lock()` turns into a strong handle. */
    predicate Live(key: K)
    {
      key in slots && slots[key] < |instances| && instances[slots[key]].strong > 0
    }

    /** How many times any factory has been called. */
    function FactoryCalls(): nat
    {
      |instances|
    }
  }

  /** The cache before any `getOrCreate` call. */
  function Empty<K, A>(): (c: Cache<K, A>)
    ensures c.Valid() && c.FactoryCalls() == 0
    ensures c.slots == map[]
  {
    Cache(map[], [])
  }

  /**
   * One call `getOrCreate(factory, args...)` for the slot `key`: the new
   * cache and the instance whose new strong handle is returned. A live slot
   * hands out its instance again without calling the factory; an
   * uninitialised or expired slot calls the factory once and points at the
   * new instance. Other slots are untouched.
   */
  function Get<K, A>(c: Cache<K, A>, key: K, args: A): (res: (Cache<K, A>, nat))
    ensures res.0.Live(key) && res.0.slots[key] == res.1
    ensures c.Live(key) ==>
      res.1 == c.slots[key] && res.0.FactoryCalls() == c.FactoryCalls() &&
      res.0.instances[res.1] == c.instances[res.1].(strong := c.instances[res.1].strong + 1)
    ensures !c.Live(key) ==>
      res.1 == c.FactoryCalls() && res.0.FactoryCalls() == c.FactoryCalls() + 1 &&
      res.0.instances[res.1] == Instance(key, args, 1)
    ensures forall i :: 0 <= i < c.FactoryCalls() && i != res.1 ==> res.0.instances[i] == c.instances[i]
    ensures res.0.slots.Keys == c.slots.Keys + {key}
    ensures forall k :: k in c.slots && k != key ==> res.0.slots[k] == c.slots[k]
  {
    if c.Live(key) then
      var h := c.slots[key];
      (c.(instances := c.instances[h := c.instances[h].(strong := c.instances[h].strong + 1)]), h)
    else
      var h := |c.instances|;
      (Cache(c.slots[key := h], c.instances + [Instance(key, args, 1)]), h)
  }

  /**
   * Destroying one strong handle to instance `h`. The slots never change;
   * when the last handle goes, the slot that points at `h` expires.
   */
  function Drop<K, A>(c: Cache<K, A>, h: nat): (d: Cache<K, A>)
    requires h < |c.instances| && c.instances[h].strong > 0
    ensures d.slots == c.slots && d.FactoryCalls() == c.FactoryCalls()
    ensures d.instances[h].strong == c.instances[h].strong - 1
    ensures forall i :: 0 <= i < c.FactoryCalls() && i != h ==> d.instances[i] == c.instances[i]
  {
    c.(instances := c.instances[h := c.instances[h].(strong := c.instances[h].strong - 1)])
  }

  /** `getOrCreate` keeps the cache's invariant. */
  lemma GetKeepsValid<K, A>(c: Cache<K, A>, key: K, args: A)
    requires c.Valid()
    ensures Get(c, key, args).0.Valid()
  {
  }

  /** Releasing a strong handle keeps the cache's invariant. */
  lemma DropKeepsValid<K, A>(c: Cache<K, A>, h: nat)
    requires c.Valid() && h < |c.instances| && c.instances[h].strong > 0
    ensures Drop(c, h).Valid()
  {
  }

  /** Distinct keys never share a slot's instance. */
  lemma SlotsDistinct<K, A>(c: Cache<K, A>, k1: K, k2: K)
    requires c.Valid() && k1 in c.slots && k2 in c.slots && k1 != k2
    ensures c.slots[k1] != c.slots[k2]
  {
  }

  /** At most one live instance per key at any time. */
  lemma AtMostOneLive<K, A>(c: Cache<K, A>, i: nat, j: nat)
    requires c.Valid() && i < |c.instances| && j < |c.instances|
    requires c.instances[i].strong > 0 && c.instances[j].strong > 0
    requires c.instances[i].factory == c.instances[j].factory
    ensures i == j
  {
  }

  /**
   * Two calls for the same key while the first handle is still held return
   * the identical instance, and the factory runs at most once across both
   * (exactly once when the slot was not live before), whatever the second
   * call's arguments.
   */
  lemma RetainedHandleIsShared<K, A>(c: Cache<K, A>, key: K, a1: A, a2: A)
    requires c.Valid()
    ensures var (c1, h1) := Get(c, key, a1);
            var (c2, h2) := Get(c1, key, a2);
            h2 == h1 && c2.FactoryCalls() == c1.FactoryCalls() &&
            c1.FactoryCalls() == c.FactoryCalls() + (if c.Live(key) then 0 else 1)
  {
  }

  /**
   * Once every strong handle to a slot's instance is released, the next call
   * calls the factory again and returns a new, distinct instance.
   */
  lemma ReleasedSlotIsRebuilt<K, A>(c: Cache<K, A>, key: K, args: A)
    requires c.Valid() && key in c.slots && c.instances[c.slots[key]].strong == 1
    ensures var d := Drop(c, c.slots[key]);
            var (e, h) := Get(d, key, args);
            !d.Live(key) && h != c.slots[key] && h !in c.slots.Values &&
            e.FactoryCalls() == c.FactoryCalls() + 1 && e.slots[key] == h
  {
  }

  /**
   * A call for one key leaves every other key's slot, and whether it is
   * live, as it was: distinct factories have independent slots.
   */
  lemma OtherSlotsIndependent<K, A>(c: Cache<K, A>, key: K, other: K, args: A)
    requires c.Valid() && other != key
    ensures var (d, _) := Get(c, key, args);
            (other in d.slots <==> other in c.slots) &&
            (other in c.slots ==> d.slots[other] == c.slots[other]) &&
            (d.Live(other) <==> c.Live(other))
  {
  }

  /** One step a program can take on the cache: a `getOrCreate` call, or destroying a strong handle. */
  datatype Step<K, A> = Call(key: K, args: A) | Destroy(handle: nat)

  /**
   * The cache after `steps`, starting from `c`, or `None` when some step
   * destroys a handle to an instance that has none left (a handle nobody
   * holds).
   */
  function Run<K, A>(c: Cache<K, A>, steps: seq<Step<K, A>>): Option<Cache<K, A>>
    decreases |steps|
  {
    if steps == [] then Some(c)
    else match steps[0]
      case Call(key, args) => Run(Get(c, key, args).0, steps[1..])
      case Destroy(h) =>
        if h < |c.instances| && c.instances[h].strong > 0 then Run(Drop(c, h), steps[1..]) else None
  }

  /**
   * Every cache a program can reach from a valid one keeps the invariant:
   * each slot points at its own factory's instance, distinct keys never
   * share an instance, and no key has two live instances.
   */
  lemma {:induction false} RunKeepsValid<K, A>(c: Cache<K, A>, steps: seq<Step<K, A>>)
    requires c.Valid()
    ensures Run(c, steps).Some? ==> Run(c, steps).value.Valid()
    decreases |steps|
  {
    if steps != [] {
      match steps[0]
      case Call(key, args) =>
        GetKeepsValid(c, key, args);
        RunKeepsValid(Get(c, key, args).0, steps[1..]);
      case Destroy(h) =>
        if h < |c.instances| && c.instances[h].strong > 0 {
          DropKeepsValid(c, h);
          RunKeepsValid(Drop(c, h), steps[1..]);
        }
    }
  }

  /** From program start, every reachable cache has at most one live instance per key. */
  lemma ReachableAtMostOneLive<K, A>(steps: seq<Step<K, A>>, i: nat, j: nat)
    requires Run(Empty(), steps).Some?
    requires var d := Run(Empty(), steps).value;
             i < |d.instances| && j < |d.instances| &&
             d.instances[i].strong > 0 && d.instances[j].strong > 0 &&
             d.instances[i].factory == d.instances[j].factory
    ensures i == j
  {
    RunKeepsValid(Empty(), steps);
  }

  /** The process-wide set of static slots, updated in place by `getOrCreate` and by handle destruction. */
  class Registry<K(==), A(==)> {
    var slots: map<K, nat>
    var instances: seq<Instance<K, A>>

    /** The abstract state. */
    function State(): Cache<K, A>
      reads this
    {
      Cache(slots, instances)
    }

    ghost predicate Valid()
      reads this
    {
      State().Valid()
    }

    /** Program start: no static slot initialised, no factory called. */
    constructor ()
      ensures Valid() && State() == Empty()
    {
      slots := map[];
      instances := [];
    }

    /**
     * `getOrCreate(factory, args...)` for the instantiation `key`, step by
     * step: on the first call the static initialiser calls the factory, keeps
     * the product in `_shared` and points the slot at it; then the slot is
     * locked, and if that fails the factory is called again and the slot
     * overwritten. The returned id stands for one new strong handle.
     */
    method GetOrCreate(key: K, args: A) returns (h: nat)
      requires Valid()
      modifies this
      ensures Valid()
      ensures (State(), h) == Get(old(State()), key, args)
    {
      var shared: Option<nat> := None;
      if key !in slots {
        var made := |instances|;
        instances := instances + [Instance(key, args, 1)];
        shared := Some(made);
        slots := slots[key := made];
      }
      var weak := slots[key];
      if instances[weak].strong > 0 {
        h := weak;
        instances := instances[h := instances[h].(strong := instances[h].strong + 1)];
        if shared.Some? {
          var s := shared.value;
          instances := instances[s := instances[s].(strong := instances[s].strong - 1)];
          assert instances == old(instances) + [Instance(key, args, 1)];
        }
      } else {
        h := |instances|;
        instances := instances + [Instance(key, args, 1)];
        slots := slots[key := h];
      }
      GetKeepsValid(old(State()), key, args);
    }

    /** Destroying one strong handle to instance `h` (the `shared_ptr` destructor). */
    method Release(h: nat)
      requires Valid() && h < |instances| && instances[h].strong > 0
      modifies this
      ensures Valid()
      ensures State() == Drop(old(State()), h)
    {
      instances := instances[h := instances[h].(strong := instances[h].strong - 1)];
      DropKeepsValid(old(State()), h);
    }
  }
}
