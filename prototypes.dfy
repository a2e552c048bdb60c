/**
 * The object store the lookup runs over: a fixed, finite heap of JavaScript
 * objects in which every object is named by its index.  An object records
 * the names `Object.getOwnPropertyNames` would list for it, its `__proto__`
 * link, the value that reading `obj.constructor` yields and, for a
 * constructor function, its `name` and `prototype` properties.
 */
module Prototypes {

  datatype Option<T> = None | Some(value: T)

  /** A reference to an object of the store: its index. */
  type Ref = nat

  /**
   * One object.
   * - `own`: its own property names.
   * - `proto`: its `__proto__` link; `None` is `null`.
   * - `ctor`: what `obj.constructor` reads (found on the object or on its
   *   prototype chain); `None` is `null`.
   * - `name`: for a constructor function, its `name` property.
   * - `prototype`: for a constructor function, its `prototype` property;
   *   `None` is `undefined`, as for every plain object.
   */
  datatype Obj = Obj(
    own: set<string>,
    proto: Option<Ref>,
    ctor: Option<Ref>,
    name: string,
    prototype: Option<Ref>)

  type Store = seq<Obj>

  /** Every link of object `o` points into the store, and `__proto__` points to a later index. */
  ghost predicate ObjValid(st: Store, o: Ref)
    requires o < |st|
  {
    && (st[o].proto.Some? ==> o < st[o].proto.value < |st|)
    && (st[o].ctor.Some? ==> st[o].ctor.value < |st|)
    && (st[o].prototype.Some? ==> st[o].prototype.value < |st|)
  }

  /**
   * A well-formed store.  Because `__proto__` always points to a strictly
   * larger index, prototype chains are finite and acyclic.
   */
  ghost predicate Valid(st: Store)
  {
    forall o :: 0 <= o < |st| ==> ObjValid(st, o)
  }

  /**
   * Every prototype level P strictly above `o` whose constructor C is not
   * null satisfies `C.prototype == P`, as a class's prototype object does.
   * The chain stops being constrained at the first level whose constructor
   * is null, which is where the hierarchy walk stops too.
   */
  ghost predicate Linked(st: Store, o: Ref)
    requires Valid(st) && o < |st|
    decreases |st| - o
  {
    assert ObjValid(st, o);
    match st[o].proto
    case None => true
    case Some(p) =>
      assert ObjValid(st, p);
      match st[p].ctor
      case None => true
      case Some(c) => st[c].prototype == Some(p) && Linked(st, p)
  }

  /** `q` lies strictly above `o` on its `__proto__` chain. */
  predicate IsAbove(st: Store, o: Ref, q: Ref)
    requires Valid(st) && o < |st|
    ensures IsAbove(st, o, q) ==> o < q < |st|
    decreases |st| - o
  {
    assert ObjValid(st, o);
    match st[o].proto
    case None => false
    case Some(p) => p == q || IsAbove(st, p, q)
  }

  /**
   * `o instanceof c`: the `prototype` of `c` lies strictly above `o` on
   * its prototype chain.  So `c.prototype` is an object other than `o`
   * itself, and it lies higher in the store.
   */
  predicate InstanceOf(st: Store, o: Ref, c: Ref)
    requires Valid(st) && o < |st| && c < |st|
    ensures InstanceOf(st, o, c) ==> st[c].prototype.Some? && o < st[c].prototype.value
  {
    match st[c].prototype
    case None => false
    case Some(q) => IsAbove(st, o, q)
  }

  /**
   * The levels the ownership lookup visits, starting at `o`: each next
   * level is the `__proto__` of the previous one; the list stops at a level
   * whose `__proto__` is null or whose `__proto__` has a null constructor.
   */
  ghost function Levels(st: Store, o: Ref): (ls: seq<Ref>)
    requires Valid(st) && o < |st|
    ensures |ls| >= 1 && ls[0] == o
    ensures forall k :: 0 <= k < |ls| ==> ls[k] < |st|
    ensures forall k :: 0 < k < |ls| ==>
              st[ls[k - 1]].proto == Some(ls[k]) && st[ls[k]].ctor.Some?
    ensures AtTop(st, ls[|ls| - 1])
    decreases |st| - o
  {
    assert ObjValid(st, o);
    match st[o].proto
    case None => [o]
    case Some(p) =>
      assert ObjValid(st, p);
      match st[p].ctor
      case None => [o]
      case Some(_) => [o] + Levels(st, p)
  }

  /**
   * The walk stops at `r`: its `__proto__` is null, or its `__proto__`'s
   * constructor is null.
   */
  ghost predicate AtTop(st: Store, r: Ref)
    requires Valid(st) && r < |st|
  {
    assert ObjValid(st, r);
    st[r].proto.None? || st[st[r].proto.value].ctor.None?
  }

  /** The constructor that `r.constructor` reads has `prop` among its own names. */
  ghost predicate CtorDeclares(st: Store, r: Ref, prop: string)
    requires Valid(st) && r < |st|
  {
    assert ObjValid(st, r);
    st[r].ctor.Some? && prop in st[st[r].ctor.value].own
  }
}
